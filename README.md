# node-seedlink-data-proxy, modelled in Dafny

The program is a Node.js gateway. It connects to remote Seedlink servers and decodes the
miniSEED records they stream. It then relays each decoded record to the browsers
that subscribed to it over a websocket. This project models the program's core in
four parts:

- **miniSEED header** (`header.dfy`, module `MSeedHeader`). This part reads the fixed
  section of a data header and walks its blockette chain (blockettes 100, 1000 and 1001)
  as chapter 8 of the SEED Reference Manual v2.4 lays them out. It counts the links
  against the declared count, derives the sample rate from the factor and multiplier,
  trims the stream codes, and applies the timing-correction rule.
- **miniSEED record** (`record.dfy`, `steim.dfy`; modules `MSeedRecord`, `Steim`). This
  part covers the data-start check and the dispatch on the encoding code. It unpacks
  int16 and int32 samples at a fixed stride and decompresses Steim1 and Steim2 as
  appendix B of the manual describes. Each control word is split into nibbles, the
  sub-word fields are sign-extended and the differences are summed from X0. The result
  is then checked against the sample count and Xn. It also builds the record's
  identifier and payload.
- **Seedlink proxy** (`seedlink_proxy.dfy`, module `SeedlinkProxy`, class `Proxy`). This
  part builds the command handshake, which is popped from the back of a queue, one
  command per "OK" CR LF. It reassembles 520-byte Seedlink packets (an 8-byte header and a
  512-byte record), at most one per data chunk. It fans each decoded record out to the
  subscribed clients and tracks the connected flag.
- **Gateway** (`gateway.dfy`, module `Gateway`, class `SeedlinkWebsocket`). This part
  builds the registry from channel name to proxy, checks the keys of incoming messages,
  and handles subscribe, unsubscribe and the channel listing, in that order. It turns
  errors and strings into replies (`mapMessage`), removes a closing client from every
  channel, and runs the heartbeat.

The supporting modules are `Buffers`, `Strings`, `Json`, `Clients` and `Wrappers`:

- `Buffers` holds Node's bounds-checked big-endian reads; a read past the end is the
  error `RangeError`. It also holds sign extension, bit fields, ASCII decoding and
  `Buffer.slice` clamping.
- `Strings` holds `trim`, `sort`, `join`, `split` and decimal conversion.
- `Json` holds JavaScript values with truthiness, `Object.keys`, property access and
  `String(v)`.
- `Clients` holds a websocket client's heartbeat flag.
- `Wrappers` holds `Option` and `Result`.

Each loop of the source is a method with a loop. Its `ensures` ties the result to a
specification function, and the properties are proved as lemmas about that function.
Each object that the source updates in place is a class. Its ghost traces record what
is written to the Seedlink server, what is sent to each client, and which calls reach
a proxy.

Where the code departs from what its own comments, the Seedlink protocol or the SEED
Reference Manual lead one to expect, the model follows the code:

- A data chunk yields at most one packet, even when two or more whole packets are
  buffered (`SeedlinkProxy.OnePacketPerChunk`).
- A packet that does not decode empties the whole buffer, including the bytes after
  that packet (`SeedlinkProxy.UndecodablePacketDropsBuffer`).
- A zero sample-rate factor or multiplier gives `null`, not an error.
- The SELECT command carries a ".D" suffix.
- The handshake sends the selectors in reverse configuration order.
- The connection greeting is never delivered: it is emitted before the "write" listener
  is attached (index.js:91 against index.js:99).
- With no channel configured, `{"channels": true}` yields an empty success string. The
  "write" listener takes that reply for a record and fails reading its `data`, so the
  client gets that TypeError as an error reply (`Gateway.ChannelsAnswered`).

## Model

| member | source | states |
|---|---|---|
| Buffers.SignExtend | lib/libmseedjs/record.js:282-283 | the result lies in [-2^(w-1), 2^(w-1)) and is congruent to the w-bit field modulo 2^w |
| Buffers.SignExtendRoundTrip | lib/libmseedjs/record.js:291-292 | sign-extending the w low bits of any w-bit signed value gives the value back |
| Buffers.Field | lib/libmseedjs/record.js:175 | `(word >> shift) & mask` lies in [0, 2^width) |
| Buffers.U8 | lib/libmseedjs/header.js:17 | the read succeeds exactly when the byte exists, and lies in [0, 256) |
| Buffers.I8 | lib/libmseedjs/header.js:122 | the read succeeds exactly when the byte exists, and lies in [-128, 128) |
| Buffers.U16 | lib/libmseedjs/header.js:99 | the read succeeds exactly when both bytes exist, and lies in [0, 2^16) |
| Buffers.I16 | lib/libmseedjs/record.js:128 | the read succeeds exactly when both bytes exist, and lies in [-2^15, 2^15) |
| Buffers.I32 | lib/libmseedjs/record.js:145 | the read succeeds exactly when all four bytes exist, and lies in [-2^31, 2^31) |
| Buffers.I32IsSignExtend | lib/libmseedjs/record.js:171 | `readInt32BE` is the 32-bit sign extension of `readUInt32BE` at the same offset |
| Buffers.I16Bits | lib/libmseedjs/record.js:128 | a signed 16-bit read is congruent to its two bytes, big-endian, modulo 2^16 |
| Buffers.I32Bits | lib/libmseedjs/record.js:145 | a signed 32-bit read is congruent to its four bytes, big-endian, modulo 2^32 |
| Buffers.EncodeI32 | lib/libmseedjs/record.js:145 | a big-endian writer stores four bytes per 32-bit value |
| Buffers.I32RoundTrip | lib/libmseedjs/record.js:145 | reading back the four bytes written for any signed 32-bit value gives that value |
| Buffers.Ascii | lib/libmseedjs/header.js:7 | the text has the clamped length, and character i is byte start+i with its high bit cleared |
| Buffers.AsciiBytes | lib/seedlink-proxy.js:88 | byte i is the low eight bits of character i |
| Buffers.AsciiRoundTrip | lib/seedlink-proxy.js:88 | ASCII text encoded to bytes and decoded again is unchanged |
| Buffers.SliceIndex | lib/libmseedjs/record.js:19 | a slice bound lies within the buffer |
| Buffers.SliceIndexResolves | lib/libmseedjs/record.js:19 | a bound within the buffer is kept, one past the end becomes the length, a negative one counts back from the end, and one before the front becomes 0 |
| Buffers.Slice | lib/libmseedjs/record.js:16 | bounds within the buffer give exactly the bytes between them; resolved bounds that cross give nothing; otherwise the bytes between the resolved bounds |
| Buffers.SliceFromEnd | lib/libmseedjs/record.js:19 | an end of -k, for k at least 1, stops k bytes before the end of the buffer |
| Buffers.SliceBeforeStart | lib/libmseedjs/record.js:19 | an end at or below minus the buffer's length, such as the record length -2^31, leaves an empty slice |
| Strings.TrimKeepsInfix | lib/libmseedjs/header.js:152-155 | `trim` keeps the contiguous part after the leading white space; both ends of it are not white space and everything dropped is white space |
| Strings.BelowTotal | index.js:247 | the default sort order relates any two strings |
| Strings.BelowTransitive | index.js:247 | the default sort order is transitive |
| Strings.BelowAntisymmetric | index.js:247 | strings ordered both ways are equal |
| Strings.Insert | index.js:247 | inserting into a sorted list keeps it sorted and adds exactly the new element |
| Strings.Sort | index.js:247 | `sort()` returns a sorted permutation of its input |
| Strings.Split | lib/libmseedjs/record.js:69 | splitting yields at least one part |
| Strings.IndexOf | lib/libmseedjs/record.js:69 | the index is the first occurrence of the character |
| Strings.IndexOfJoin | lib/libmseedjs/record.js:69 | in `a + [c] + b` with no `c` in `a`, the first `c` is at `\|a\|` |
| Strings.SplitJoin | lib/libmseedjs/record.js:64-69 | joining parts free of the separator and splitting again gives the parts back |
| Strings.NatToString | index.js:232 | decimal digits only, at least one, with no leading zero |
| Strings.NatToStringRoundTrip | index.js:232 | the decimal text of n has value n |
| Json.IndexKeys | index.js:232 | every index of a string or array is among its keys |
| Json.OwnKeys | index.js:232 | `Object.keys` fails exactly on `null`, and an object's keys are its fields |
| Json.Get | index.js:237 | a property is present exactly when the value is an object holding that key |
| MSeedHeader.Read | lib/libmseedjs/header.js:99 | a read that does not fit is a RangeError; any other gives its value |
| MSeedHeader.RecordLength | lib/libmseedjs/header.js:116 | `1 << e` is 2^(e mod 32) when e mod 32 is below 31, and -2^31 when it is 31 |
| MSeedHeader.ReadBlockette | lib/libmseedjs/header.js:108-132 | one link: the next offset from +2, the count up by one, blockette 1000/1001/100 fields from their offsets, other blockettes only advance |
| MSeedHeader.BlocketteChain | lib/libmseedjs/header.js:97-141 | a chain that ends has exactly the declared number of links |
| MSeedHeader.ReadBlocketteChain | lib/libmseedjs/header.js:97-141 | the chain loop computes `BlocketteChain` |
| MSeedHeader.LoopStep | lib/libmseedjs/header.js:104-134 | a zero offset ends the loop with the chain so far, a failing read throws, and otherwise the loop moves to the next offset read at +2 with one more blockette counted |
| MSeedHeader.Iterate | lib/libmseedjs/header.js:104-134 | a loop still running after n passes has counted exactly n more blockettes |
| MSeedHeader.HaltedStays | lib/libmseedjs/header.js:104 | the source's loop, once stopped, stays stopped |
| MSeedHeader.ChainCountsLinks | lib/libmseedjs/header.js:104-134 | the count of a finished walk is the number of non-zero offsets visited before a next-offset of 0 |
| MSeedHeader.ChainFromAgrees | lib/libmseedjs/header.js:104-134 | wherever the bounded walk does not report a cycle, the source's loop stops with the same outcome |
| MSeedHeader.ChainCycleIffDivergence | lib/libmseedjs/header.js:104-134 | the bounded walk reports a cycle exactly when the source's loop never stops |
| MSeedHeader.SelfLinkedChainNeverEnds | lib/libmseedjs/header.js:104-134 | on a blockette that links to itself the source's loop runs forever |
| MSeedHeader.SelfLinkedChainIsReported | lib/libmseedjs/header.js:99-139 | the bounded walk reports that chain as a cycle |
| MSeedHeader.UpTo | lib/libmseedjs/header.js:104 | the offsets 1..bound, with bound elements |
| MSeedHeader.RateFromFactors | lib/libmseedjs/header.js:58-76 | a rate exists exactly when neither factor nor multiplier is 0, is positive, and is the factor's rate scaled by the multiplier |
| MSeedHeader.ReadSampleRate | lib/libmseedjs/header.js:58-76 | succeeds exactly when bytes 32-35 exist, with the rate of the i16 factor at 32 and multiplier at 34 |
| MSeedHeader.ReadBitFlags | lib/libmseedjs/header.js:83-91 | the activity, clock and quality flags are the bytes at 36, 37 and 38 |
| MSeedHeader.TenthTruncated | lib/libmseedjs/header.js:181 | `(0.1 * x) \| 0` is x / 10 truncated toward zero |
| MSeedHeader.ReadRecordStart | lib/libmseedjs/header.js:164-176 | succeeds exactly when bytes 20-29 exist; milliseconds are the tenth-millisecond field at 28 divided by 10, rounded down |
| MSeedHeader.StartCorrection | lib/libmseedjs/header.js:180-182 | no correction when bit 0x02 of the activity flags is set, otherwise the timing correction in tenths of a millisecond truncated toward zero (rounded down when non-negative, up when negative) |
| MSeedHeader.StreamCode | lib/libmseedjs/header.js:152-155 | a trimmed code is no longer than its field |
| MSeedHeader.ParseHeader | lib/libmseedjs/header.js:5-52 | a decoded header has a chain that ends with the declared count |
| MSeedHeader.FixedSection | lib/libmseedjs/header.js:5-52 | sequence number bytes 0-6, quality byte 6, blockette count byte 39, sample count u16 at 30, flags at 36-38, timing correction i32 at 40 |
| MSeedHeader.NewHeader | lib/libmseedjs/header.js:5-52 | the constructor computes `ParseHeader` |
| MSeedHeader.BlocketteCountIsLinksFollowed | lib/libmseedjs/header.js:99-139 | the declared count is the number of links followed from the offset at byte 46 to a next-offset of 0 |
| MSeedHeader.BlocketteCountMismatchRefused | lib/libmseedjs/header.js:137-139 | a chain whose length differs from byte 39 is refused |
| MSeedHeader.ByteOrderRequired | lib/libmseedjs/header.js:29-32 | a decoded header has a non-zero byte order; a missing or zero byte order is refused as little-endian |
| MSeedHeader.RateSource | lib/libmseedjs/header.js:36-39 | the factor/multiplier rate is used only when no blockette 100 set the rate |
| MSeedHeader.StreamIdShape | lib/libmseedjs/header.js:148-157 | station, location, channel and network are trimmed bytes 8-13, 13-15, 15-18 and 18-20, of at most 5, 2, 3 and 2 characters |
| Steim.FrameCount | lib/libmseedjs/record.js:167 | a non-zero `nFrames` is used, otherwise every started 64-byte frame |
| Steim.Nibble | lib/libmseedjs/record.js:175 | a nibble lies in 0..3 |
| Steim.SubField | lib/libmseedjs/record.js:277-309 | a Steim2 field lies in [-2^(w-1), 2^(w-1)) and is congruent to its bits modulo 2^w |
| Steim.Packed | lib/libmseedjs/record.js:277-349 | `count` fields, field k taken from the bits most significant first |
| Steim.Bytes8 | lib/libmseedjs/record.js:184-188 | four signed bytes when the word fits, a RangeError otherwise |
| Steim.WordDiffs | lib/libmseedjs/record.js:177-201 | nibble 0 gives nothing, nibble 1 four signed bytes, and a RangeError only for a word past the end |
| Steim.ReadDifferences | lib/libmseedjs/record.js:169-205 | the frame loop computes `FramesDiffs` |
| Steim.ReadFrame | lib/libmseedjs/record.js:173-203 | the word loop computes `WordsDiffs` over all 16 words |
| Steim.WordsErrorStays | lib/libmseedjs/record.js:173-203 | once a word fails, the frame fails with that error |
| Steim.FramesErrorStays | lib/libmseedjs/record.js:169-205 | once a frame fails, decoding fails with that error |
| Steim.Integrate | lib/libmseedjs/record.js:208-211 | `samples[0]` is X0, `samples[i] = samples[i-1] + diff[i]`, and the length is max(1, \|diff\|) |
| Steim.Reconstruct | lib/libmseedjs/record.js:358-361 | the summing loop computes `Integrate` |
| Steim.UnpackSteim | lib/libmseedjs/record.js:160-224 | a decoded block has `nSamples` samples, first X0 (i32 at 4) and last Xn (i32 at 8) |
| Steim.Unpack | lib/libmseedjs/record.js:233-374 | the decoder computes `UnpackSteim` |
| Steim.Steim1Word | lib/libmseedjs/record.js:177-201 | nibbles 1, 2 and 3 give four 8-bit, two 16-bit or one 32-bit signed difference in byte order, or a RangeError past the end |
| Steim.Steim2Word | lib/libmseedjs/record.js:271-349 | the decode nibble selects 1x30, 2x15, 3x10, 5x6, 6x5 or 7x4 fields, each in [-2^(w-1), 2^(w-1)); other decode nibbles are errors |
| Steim.NibbleOfStoredWord | lib/libmseedjs/record.js:171-175 | nibble j of the control word is bits 31-2j..30-2j of the stored word |
| Steim.SignedFieldIsUnsignedField | lib/libmseedjs/record.js:175 | `>>` and `&` see the same low bits in a word and in its sign extension |
| Steim.Deltas | lib/libmseedjs/record.js:210 | the differences between consecutive samples |
| Steim.IntegrateDeltas | lib/libmseedjs/record.js:208-211 | integrating from X0 the differences of a sequence, behind any first difference, gives the sequence back |
| Steim.IntegrateLast | lib/libmseedjs/record.js:218 | the last sample is X0 plus every difference but the first |
| Steim.FirstDifferenceIgnored | lib/libmseedjs/record.js:209-211 | the first difference never affects the samples |
| Steim.CorruptedDifferenceDetected | lib/libmseedjs/record.js:368-370 | changing one applied difference changes the last sample by the same amount, so the Xn check catches it |
| Steim.UnpackSteimChecks | lib/libmseedjs/record.js:357-372 | decoding succeeds exactly when the sum has `nSamples` samples ending in Xn, and the error names the failed check |
| MSeedRecord.Int16Samples | lib/libmseedjs/record.js:123-133 | exactly `nSamples` values, value i the signed 16-bit big-endian integer at 2i; a RangeError when the last read does not fit |
| MSeedRecord.Int32Samples | lib/libmseedjs/record.js:140-150 | exactly `nSamples` values, value i the signed 32-bit big-endian integer at 4i; a RangeError when the last read does not fit |
| MSeedRecord.FloatSamples | lib/libmseedjs/record.js:94-116 | exactly `nSamples` words, word i the bytes at width*i; a RangeError when the last read does not fit |
| MSeedRecord.Unpack16BitInt | lib/libmseedjs/record.js:123-133 | the loop computes `Int16Samples` |
| MSeedRecord.Unpack32BitInt | lib/libmseedjs/record.js:140-150 | the loop computes `Int32Samples` |
| MSeedRecord.UnpackFloat | lib/libmseedjs/record.js:94-116 | the loop computes `FloatSamples` |
| MSeedRecord.UnpackData | lib/libmseedjs/record.js:28-55 | unpacking succeeds only for encodings 1, 3, 4, 5, 10 and 11, and gives nSamples values (float words of width 4 or 8 for encodings 4 and 5) |
| MSeedRecord.UnpackDataMethod | lib/libmseedjs/record.js:28-55 | the dispatch computes `UnpackData` |
| MSeedRecord.Decode | lib/libmseedjs/record.js:7-21 | a decoded record has a data start of at least 48; its header is decoded from the bytes before it and its samples from the bytes up to the record length |
| MSeedRecord.NewRecord | lib/libmseedjs/record.js:7-21 | the constructor computes `Decode` |
| MSeedRecord.DataStartChecked | lib/libmseedjs/record.js:9-13 | a data start below 48 is refused |
| MSeedRecord.EncodingDispatch | lib/libmseedjs/record.js:31-53 | encodings 1, 3, 4, 5, 10 and 11 select int16, int32, float32, float64, Steim1 and Steim2; any other is an error |
| MSeedRecord.IdSplits | lib/libmseedjs/record.js:62-71 | the identifier split at "." gives back network, station, location and channel |
| MSeedRecord.Id | lib/libmseedjs/record.js:62-71 | network, station, location and channel joined with "." |
| MSeedRecord.PayloadOf | lib/libmseedjs/record.js:78-91 | the payload carries the record's samples, start and rate, and its id splits back into its own four codes |
| MSeedRecord.PayloadOfDecoded | lib/libmseedjs/record.js:78-91 | for a decoded record, the payload's id joins the trimmed header codes and its data are the samples unpacked between the data start and the record length |
| MSeedRecord.IdOfParsed | lib/libmseedjs/record.js:62-71 | the identifier of a decoded header joins the trimmed codes of bytes 18-20, 8-13, 13-15 and 15-18 with "." |
| SeedlinkProxy.ConvertCommand | lib/seedlink-proxy.js:82-90 | a command is its ASCII bytes followed by 13, 10 |
| SeedlinkProxy.SeedlinkOkBytes | lib/seedlink-proxy.js:13 | the acknowledgement is the bytes 79, 75, 13, 10 |
| SeedlinkProxy.StreamCommandStrings | lib/seedlink-proxy.js:98-104 | 1 + 3 per selector commands, END at index 0, then DATA, SELECT, STATION per selector in order |
| SeedlinkProxy.Converted | lib/seedlink-proxy.js:107 | each command converted in place |
| SeedlinkProxy.Reverse | lib/seedlink-proxy.js:43 | element i of the reversal is element \|s\|-1-i |
| SeedlinkProxy.SendOrder | lib/seedlink-proxy.js:139 | 1 + 3 per selector commands, END last |
| SeedlinkProxy.HandshakeOrder | lib/seedlink-proxy.js:92-109 | popping the queue from the back sends the selectors in reverse order, each as STATION, SELECT, DATA, then END |
| SeedlinkProxy.HandshakeExample | lib/seedlink-proxy.js:100-104 | NL.HGN..BHZ is requested as "STATION HGN NL", "SELECT BHZ.D", "DATA", "END" |
| SeedlinkProxy.Ingest | lib/seedlink-proxy.js:46-62 | below 520 bytes the chunk is only appended; a payload is broadcast exactly when 520 bytes are buffered and bytes 8-520 decode, and then the rest is kept; on a decode failure everything is dropped |
| SeedlinkProxy.DecodablePacketBroadcast | lib/seedlink-proxy.js:51-60 | a whole packet whose record decodes is broadcast once as that record's payload, and the bytes after it stay buffered |
| SeedlinkProxy.Consume | lib/seedlink-proxy.js:46-62 | the buffering and decoding of the data handler computes `Ingest` |
| SeedlinkProxy.IngestKeepsTail | lib/seedlink-proxy.js:47-60 | what the data handler keeps is always the unconsumed tail of all data received |
| SeedlinkProxy.OnePacketPerChunk | lib/seedlink-proxy.js:51-62 | two whole packets in one chunk broadcast only the first |
| SeedlinkProxy.UndecodablePacketDropsBuffer | lib/seedlink-proxy.js:54-60 | a packet that does not decode empties the whole buffer and broadcasts nothing |
| SeedlinkProxy.Fanout | lib/seedlink-proxy.js:73-80 | the same payload to every subscribed socket, in array order |
| SeedlinkProxy.Proxy.constructor | lib/seedlink-proxy.js:6-28 | not connected, no sockets, an empty buffer and nothing queued |
| SeedlinkProxy.Proxy.GetStreamCommands | lib/seedlink-proxy.js:92-109 | the loop builds `StreamCommands` |
| SeedlinkProxy.Proxy.OnConnect | lib/seedlink-proxy.js:131-141 | connected, the whole queue built, its last command written and removed |
| SeedlinkProxy.Proxy.OnData | lib/seedlink-proxy.js:39-64 | an "OK" CR LF with commands queued writes exactly the last one; any other chunk goes through `Ingest` and its broadcast |
| SeedlinkProxy.Proxy.WriteNextCommand | lib/seedlink-proxy.js:42-44 | the last queued command is written and removed, nothing else changes |
| SeedlinkProxy.Proxy.ReceiveData | lib/seedlink-proxy.js:46-62 | the buffer becomes `Ingest`'s, the broadcast is its payload to every socket, and the buffer stays the unconsumed tail of all data received |
| SeedlinkProxy.Proxy.Absorb | lib/seedlink-proxy.js:55-60 | the chunk is recorded, the emitted payload broadcast, and the buffer becomes the kept tail |
| SeedlinkProxy.Proxy.Broadcast | lib/seedlink-proxy.js:73-80 | one delivery per socket, in order |
| SeedlinkProxy.Proxy.OnClose | lib/seedlink-proxy.js:67-69 | not connected afterwards |
| SeedlinkProxy.Proxy.Disconnect | lib/seedlink-proxy.js:111-122 | BYE CR LF is written |
| SeedlinkProxy.HandshakeComplete | lib/seedlink-proxy.js:39-44 | once the queue is empty, the commands written since connecting are the whole handshake in send order |
| Gateway.MapMessage | index.js:130-150 | an error becomes `{"error": ...}` with its message, or its stack in debug mode; a string becomes `{"success": ...}` |
| Gateway.WriteOutcome | index.js:99-112 | a reply with an empty text is taken for a record and throws a TypeError; any other is sent |
| Gateway.ErrorsAreWritten | index.js:99-112 | an error with a message is always written back |
| Gateway.IfTruthy | index.js:237 | the value is kept exactly when it is truthy |
| Gateway.Plan | index.js:229-248 | a message is refused exactly when it is `null` or has a key outside subscribe, unsubscribe and channels; otherwise each operation runs exactly when its value is truthy |
| Gateway.IndexedValuesRefused | index.js:232-234 | a non-empty string or array is refused, since its indices are keys |
| Gateway.EmptyObjectAccepted | index.js:232-248 | `{}` is accepted and asks for nothing |
| Gateway.Then | index.js:237-248 | a step that throws ends the handling |
| Gateway.SubscriptionEffect | index.js:329-370 | a configured channel gets exactly one add or remove call; an unknown one gets no call and one error reply to that client naming it, as subscription or unsubscription |
| Gateway.InvalidOperationAnswered | index.js:115-123 | a message with another key gets one error reply and reaches no proxy |
| Gateway.SyntaxErrorAnswered | index.js:115-123 | text that does not parse gets the parser's message as an error reply |
| Gateway.SubscribeConfigured | index.js:356-370 | subscribing to a configured channel adds the client to its proxy and sends nothing |
| Gateway.SubscribeUnknown | index.js:363-365 | subscribing to an unknown channel gets an error reply naming it |
| Gateway.UnsubscribeUnknown | index.js:336-338 | unsubscribing from an unknown channel gets an error reply naming it, with the stack line in debug mode |
| Gateway.SubscribeThenUnsubscribe | index.js:237-243 | subscribe is handled before unsubscribe |
| Gateway.ChannelsAnswered | index.js:246-248 | the listing is the sorted names joined by a space; with no channel the client gets the TypeError instead |
| Gateway.SortedUnique | index.js:247 | two sorted orderings of the same names are equal |
| Gateway.ChannelsReply | index.js:247 | no channel gives the empty listing; names without spaces split back from the listing sorted and each exactly once |
| Gateway.ListingSplits | index.js:247 | splitting the listing at spaces gives the sorted names, when none contains a space |
| Gateway.MessageEffect | index.js:205-250 | a refused message throws its error and does nothing else; an accepted one makes at most two proxy calls, each for this client on a configured proxy |
| Gateway.ChannelsReplyOrderFree | index.js:247 | the listing does not depend on the configuration order |
| Gateway.ChannelsReplyExample | index.js:247 | channels A, B and C in any order are listed as "A B C" |
| Gateway.Names | index.js:312-314 | the configured names, in order |
| Gateway.KeyOrder | index.js:309-314 | the keys are the configured names, each once |
| Gateway.LastIndex | index.js:312-314 | a name maps to its last configuration entry |
| Gateway.RemoveKnown | index.js:336-341 | unsubscribing from a configured channel removes the client from its proxy, sends nothing and throws nothing |
| Gateway.CloseCalls | index.js:293-295 | one removal per channel, in key order |
| Gateway.CloseLeavesEveryChannel | index.js:285-297 | a closing client is removed from every configured channel |
| Gateway.SeedlinkWebsocket.constructor | index.js:21-56 | the registry holds a proxy per configured name, built from its last entry, and nothing was sent |
| Gateway.SeedlinkWebsocket.CreateSeedlinkProxies | index.js:299-316 | a proxy per name under its own name, from the last entry of that name, keys in first-assignment order |
| Gateway.SeedlinkWebsocket.Write | index.js:99-112 | emitting "write" sends `WriteOutcome`'s reply or throws its error |
| Gateway.SeedlinkWebsocket.ChannelExists | index.js:345-354 | a string channel exists exactly when it is a configured name, and `null` is looked up as "null" |
| Gateway.SeedlinkWebsocket.Subscribe | index.js:356-370 | the effect is `SubscriptionEffect` with add |
| Gateway.SeedlinkWebsocket.Unsubscribe | index.js:329-343 | the effect is `SubscriptionEffect` with remove |
| Gateway.SeedlinkWebsocket.HandleIncomingMessage | index.js:205-250 | the effect is `MessageEffect` |
| Gateway.SeedlinkWebsocket.Perform | index.js:237-248 | subscribe, then unsubscribe, then the listing, stopping at the first error |
| Gateway.SeedlinkWebsocket.PerformStep | index.js:237-243 | a requested subscribe or unsubscribe has the effect `SubscriptionEffect` gives it; one not requested does nothing |
| Gateway.SeedlinkWebsocket.PerformSubscriptions | index.js:237-243 | subscribe, then unsubscribe, stopping at the first error |
| Gateway.SeedlinkWebsocket.OnMessage | index.js:115-123 | the effect is `ReceiveEffect`; an error from the write escapes the listener |
| Gateway.SeedlinkWebsocket.Report | index.js:119-121 | an error thrown by the handling is written back, and what that write throws escapes the listener |
| Gateway.SeedlinkWebsocket.UnsubscribeAll | index.js:285-297 | every channel's proxy gets one removal, in key order, and no reply is sent |
| Gateway.SeedlinkWebsocket.OnConnection | index.js:90-93 | the heartbeat flag is set |
| Gateway.SeedlinkWebsocket.OnClose | index.js:96 | the client is removed from every channel |
| Gateway.SeedlinkWebsocket.OnPong | index.js:79-88 | the heartbeat flag is set |
| Gateway.SeedlinkWebsocket.CheckHeartbeat | index.js:267-283 | a client with a clear flag is terminated; any other gets its flag cleared and one more ping |

## Left out

- Floating point: the float32 and float64 encodings and the blockette-100 rate are kept
  as their raw IEEE 754 bytes, and `end` (the start plus `nSamples / sampleRate`) is not
  computed.
- Start time: `new Date(...).setDate(...)` depends on the local time zone, so the start is
  kept as its BTIME fields plus the correction in milliseconds.
- `JSON.parse` and `JSON.stringify`: a message arrives as its parsed value or the parser's
  error text, and a reply is kept as its `{"error"}` or `{"success"}` value.
- Logging: `setupLogger` and the record log line of `logRecordMessage` are file output.
  Only the failure of reading the missing `data` of a non-record reply is modelled.
- TCP, websocket and timers: the sockets, `ws.Server`, `setInterval` and `socket.destroy`
  are not modelled. Sends, pings, terminations and writes to the Seedlink server are
  recorded instead.
- The proxies' `addSocket` and `removeSocket` are not part of this model. The gateway's
  calls to them are recorded, and `Broadcast` sends to whatever `sockets` holds.
- The console output of the socket error handler and of the start-up callback is not
  modelled.
- Json.Value: numbers are integers only.
- The default sort compares UTF-16 code units. The model compares characters by code
  point, which agrees for every name without characters outside the Basic Multilingual
  Plane.
- Gateway.KeyOrder: keys are listed in first-assignment order. JavaScript lists
  integer-like keys first, in ascending order, which only the listing (sorted anyway)
  and `UnsubscribeAll`'s order could observe.
- Channel names such as "__proto__" or "hasOwnProperty", which collide with properties of
  `Object.prototype`, are not modelled.
- Gateway.Stack: the stack is its first line; the frames are not modelled.
- Gateway.MissingData: the TypeError's wording depends on the Node version.
- SeedlinkProxy.Proxy: the command queue is empty before the first connection. In the
  source it is `undefined` until then, and the server sends no data before that.
- Json.IndexKeys: states that every index is a key, not that nothing else is.
- MSeedHeader.StreamCode: states only the length bound. What `trim` keeps and drops is
  stated by `Strings.TrimKeepsInfix` and `MSeedHeader.StreamIdShape`.
- MSeedHeader.ReadRecordStart: states only the millisecond field, as the other fields go
  straight into the date computation.
- MSeedHeader.BlocketteChain: the walk is bounded by the header length. This bound is
  the corrected behaviour described under Findings, and `ChainCycleIffDivergence` proves
  that it reports a cycle exactly when the source's loop would not stop.
- Steim.ReadFrame: the inner loop over the 1 to 7 values of one word is a function
  (`WordDiffs`, `Packed`), not a loop.

## Findings

| source | as written | input that shows it | evidently intended | confidence | as-written member | corrected member |
|---|---|---|---|---|---|---|
| lib/libmseedjs/header.js:104-134 | `while (blocketteStart)` follows next-offsets with no bound, so a chain that links back to an earlier blockette never ends and the constructor never returns | a header with offset 48 at byte 46 and, at 48, a blockette of type 0 whose next offset is 48 (`MSeedHeader.SelfLinkedChain`) | a malformed chain is refused like any other malformed header | not executed; follows from the loop's exit test | MSeedHeader.SelfLinkedChainNeverEnds | MSeedHeader.ChainCycleIffDivergence |
