/** One Seedlink proxy: a TCP client of a remote Seedlink server that performs the
    command handshake for its configured streams, reassembles 520-byte Seedlink packets
    (an 8-byte Seedlink header and a 512-byte miniSEED record) from the data it
    receives, and broadcasts each decoded record to the websocket clients that
    subscribed to it. */
module SeedlinkProxy {
  import opened Wrappers
  import opened Buffers
  import MSeedRecord
  import opened Clients

  /** One stream the proxy requests from the server. */
  datatype Selector = Selector(network: string, station: string, location: string, channel: string)

  /** An entry of the channel configuration. */
  datatype ChannelConfig = ChannelConfig(name: string, host: string, port: int, selectors: seq<Selector>)

  /** A Seedlink packet: its 8-byte header and a 512-byte miniSEED record. */
  const PacketLength := 520
  const PacketHeaderLength := 8

  /** A Seedlink command on the wire: the ASCII text followed by CR LF. */
  function ConvertCommand(command: string): (b: seq<uint8>)
    ensures |b| == |command| + 2
    ensures b[..|command|] == AsciiBytes(command) && b[|command|..] == [13, 10]
  {
    AsciiBytes(command + [13 as char, 10 as char])
  }

  /** The server's acknowledgement, "OK" CR LF. */
  const SeedlinkOk: seq<uint8> := ConvertCommand("OK")

  lemma SeedlinkOkBytes()
    ensures SeedlinkOk == [79, 75, 13, 10]
  {
    assert SeedlinkOk[..2] == AsciiBytes("OK");
  }

  /** The three commands that request one stream, in the order they are queued. */
  function SelectorCommands(s: Selector): seq<string> {
    ["DATA", "SELECT " + s.location + s.channel + ".D", "STATION " + s.station + " " + s.network]
  }

  /** The queue `getStreamCommands` builds, as text: "END" first, then DATA, SELECT and
      STATION for each selector in configuration order. The handshake pops it from the
      back. */
  function StreamCommandStrings(sel: seq<Selector>): (r: seq<string>)
    ensures |r| == 1 + 3 * |sel| && r[0] == "END"
    ensures forall k :: 0 <= k < |sel| ==> r[1 + 3 * k .. 4 + 3 * k] == SelectorCommands(sel[k])
  {
    if sel == [] then ["END"]
    else
      var front := StreamCommandStrings(sel[..|sel| - 1]);
      var r := front + SelectorCommands(sel[|sel| - 1]);
      assert forall k :: 0 <= k < |sel| - 1 ==> r[1 + 3 * k .. 4 + 3 * k] == front[1 + 3 * k .. 4 + 3 * k];
      r
  }

  lemma StreamCommandStringsStep(sel: seq<Selector>, k: nat)
    requires k < |sel|
    ensures StreamCommandStrings(sel[..k + 1]) == StreamCommandStrings(sel[..k]) + SelectorCommands(sel[k])
  {
    assert sel[..k + 1][..k] == sel[..k];
  }

  function Converted(cmds: seq<string>): (r: seq<seq<uint8>>)
    ensures |r| == |cmds| && forall i :: 0 <= i < |cmds| ==> r[i] == ConvertCommand(cmds[i])
  {
    seq(|cmds|, i requires 0 <= i < |cmds| => ConvertCommand(cmds[i]))
  }

  /** `getStreamCommands()`: the queue as bytes. */
  function StreamCommands(sel: seq<Selector>): seq<seq<uint8>> {
    Converted(StreamCommandStrings(sel))
  }

  function Reverse<T>(s: seq<T>): (r: seq<T>)
    ensures |r| == |s| && forall i :: 0 <= i < |s| ==> r[i] == s[|s| - 1 - i]
  {
    if s == [] then [] else [s[|s| - 1]] + Reverse(s[..|s| - 1])
  }

  /** The order in which the handshake writes the commands: the last selector first,
      each as STATION, SELECT, DATA, and "END" last. */
  function SendOrder(sel: seq<Selector>): (r: seq<string>)
    ensures |r| == 1 + 3 * |sel| && r[|r| - 1] == "END"
  {
    if sel == [] then ["END"]
    else Reverse(SelectorCommands(sel[|sel| - 1])) + SendOrder(sel[..|sel| - 1])
  }

  lemma ReverseAppend<T>(a: seq<T>, b: seq<T>)
    ensures Reverse(a + b) == Reverse(b) + Reverse(a)
  {
    var l, r := Reverse(a + b), Reverse(b) + Reverse(a);
    assert forall i :: 0 <= i < |l| ==> l[i] == r[i];
  }

  lemma {:induction false} HandshakeOrder(sel: seq<Selector>)
    ensures Reverse(StreamCommandStrings(sel)) == SendOrder(sel)
  {
    if sel != [] {
      var init := sel[..|sel| - 1];
      HandshakeOrder(init);
      ReverseAppend(StreamCommandStrings(init), SelectorCommands(sel[|sel| - 1]));
    }
  }

  /** Right after connecting, the last command is written and the rest are queued. */
  lemma ConnectQueues(sel: seq<Selector>)
    ensures var all := StreamCommands(sel);
            |all| >= 1 && HandshakeQueued(sel, true, [all[|all| - 1]], all[..|all| - 1])
  {
    SplitLast(StreamCommands(sel));
  }

  lemma SplitLast<T>(s: seq<T>)
    requires |s| >= 1
    ensures [s[|s| - 1]] + Reverse(s[..|s| - 1]) == Reverse(s)
  {
    var l, r := [s[|s| - 1]] + Reverse(s[..|s| - 1]), Reverse(s);
    assert forall i :: 0 <= i < |l| ==> l[i] == r[i];
  }

  lemma ReverseConverted(cmds: seq<string>)
    ensures Reverse(Converted(cmds)) == Converted(Reverse(cmds))
  {
  }

  /** Requesting network NL, station HGN, location "", channel BHZ writes exactly these
      four commands, in this order. */
  lemma HandshakeExample()
    ensures SendOrder([Selector("NL", "HGN", "", "BHZ")])
         == ["STATION HGN NL", "SELECT BHZ.D", "DATA", "END"]
  {
    var s := Selector("NL", "HGN", "", "BHZ");
    assert "SELECT " + s.location + s.channel + ".D" == "SELECT BHZ.D";
    assert "STATION " + s.station + " " + s.network == "STATION HGN NL";
    assert SelectorCommands(s) == ["DATA", "SELECT BHZ.D", "STATION HGN NL"];
    assert SendOrder([s]) == Reverse(SelectorCommands(s)) + ["END"];
  }

  /** What one data chunk does to the reassembly buffer: the bytes kept and the payload
      broadcast, if any. */
  datatype Step = Step(buffer: seq<uint8>, emitted: Option<MSeedRecord.Payload>)

  /** The data handler for a chunk that is not part of the handshake: append, and once a
      whole packet is buffered decode its record; on success broadcast it and keep what
      follows the packet, on failure drop the whole buffer. At most one packet is
      handled per chunk. */
  function Ingest(buffer: seq<uint8>, chunk: seq<uint8>): (r: Step)
    ensures var all := buffer + chunk;
            |r.buffer| <= |all| && r.buffer == all[|all| - |r.buffer|..]
    ensures var all := buffer + chunk;
            |all| < PacketLength ==> r == Step(all, None)
    ensures var all := buffer + chunk;
            r.emitted.Some? <==> |all| >= PacketLength && MSeedRecord.Decode(all[PacketHeaderLength..PacketLength]).Ok?
    ensures var all := buffer + chunk;
            r.emitted.Some? ==>
              && |all| >= PacketLength
              && MSeedRecord.Decode(all[PacketHeaderLength..PacketLength]).Ok?
              && r.emitted.value == MSeedRecord.PayloadOf(MSeedRecord.Decode(all[PacketHeaderLength..PacketLength]).value)
              && r.buffer == all[PacketLength..]
    ensures var all := buffer + chunk;
            |all| >= PacketLength && r.emitted.None? ==> r.buffer == []
  {
    var all := buffer + chunk;
    if |all| < PacketLength then Step(all, None)
    else
      match MSeedRecord.Decode(all[PacketHeaderLength..PacketLength])
      case Ok(rec) => Step(all[PacketLength..], Some(MSeedRecord.PayloadOf(rec)))
      case Err(_) => Step([], None)
  }

  /** A buffered packet whose record decodes is broadcast once, and the bytes after it
      stay buffered. */
  lemma DecodablePacketBroadcast(buffer: seq<uint8>, chunk: seq<uint8>)
    requires |buffer + chunk| >= PacketLength
    requires MSeedRecord.Decode((buffer + chunk)[PacketHeaderLength..PacketLength]).Ok?
    ensures var all := buffer + chunk;
            Ingest(buffer, chunk)
            == Step(all[PacketLength..], Some(MSeedRecord.PayloadOf(MSeedRecord.Decode(all[PacketHeaderLength..PacketLength]).value)))
  {
  }

  /** A chunk holding two whole packets broadcasts only the first and leaves the second
      buffered until the next chunk arrives. */
  lemma OnePacketPerChunk(buffer: seq<uint8>, chunk: seq<uint8>)
    requires |buffer + chunk| >= 2 * PacketLength
    requires MSeedRecord.Decode((buffer + chunk)[PacketHeaderLength..PacketLength]).Ok?
    ensures Ingest(buffer, chunk).emitted.Some?
    ensures |Ingest(buffer, chunk).buffer| >= PacketLength
  {
  }

  /** A packet whose record does not decode is dropped together with every byte buffered
      after it, so the packets that follow it in the same chunk are lost. */
  lemma UndecodablePacketDropsBuffer(buffer: seq<uint8>, chunk: seq<uint8>)
    requires |buffer + chunk| >= PacketLength
    requires MSeedRecord.Decode((buffer + chunk)[PacketHeaderLength..PacketLength]).Err?
    ensures Ingest(buffer, chunk) == Step([], None)
  {
  }

  /** A message written to one websocket client. */
  datatype Delivery = Delivery(to: Client, payload: MSeedRecord.Payload)

  function Fanout(sockets: seq<Client>, p: MSeedRecord.Payload): (r: seq<Delivery>)
    ensures |r| == |sockets| && forall i :: 0 <= i < |r| ==> r[i] == Delivery(sockets[i], p)
  {
    seq(|sockets|, i requires 0 <= i < |sockets| => Delivery(sockets[i], p))
  }

  /** Before any connection nothing is queued or written; afterwards the commands written
      since the connection opened, followed by the queue from its back, are the whole
      handshake. */
  ghost predicate HandshakeQueued(sel: seq<Selector>, started: bool, handshake: seq<seq<uint8>>, commands: seq<seq<uint8>>) {
    && (started ==> handshake + Reverse(commands) == Reverse(StreamCommands(sel)))
    && (!started ==> commands == [] && handshake == [])
  }

  /** `buffer` is what remains of `received` after the bytes consumed so far. */
  ghost predicate IsTail(buffer: seq<uint8>, received: seq<uint8>) {
    |buffer| <= |received| && buffer == received[|received| - |buffer|..]
  }

  lemma TailOfAppend(buffer: seq<uint8>, received: seq<uint8>, chunk: seq<uint8>)
    requires IsTail(buffer, received)
    ensures IsTail(buffer + chunk, received + chunk)
  {
    var r := received + chunk;
    assert (buffer + chunk) == r[|r| - |buffer + chunk|..];
  }

  /** The data handler's buffering and decoding, computing `Ingest`. */
  method Consume(buffer: seq<uint8>, chunk: seq<uint8>) returns (r: Step)
    ensures r == Ingest(buffer, chunk)
  {
    var all := buffer + chunk;
    if |all| < PacketLength {
      return Step(all, None);
    }
    var decoded := MSeedRecord.NewRecord(all[PacketHeaderLength..PacketLength]);
    if decoded.Ok? {
      return Step(all[PacketLength..], Some(MSeedRecord.PayloadOf(decoded.value)));
    }
    return Step([], None);
  }

  /** What `Ingest` keeps is the unconsumed tail of everything received. */
  lemma IngestKeepsTail(buffer: seq<uint8>, received: seq<uint8>, chunk: seq<uint8>)
    requires IsTail(buffer, received)
    ensures IsTail(Ingest(buffer, chunk).buffer, received + chunk)
  {
    var all := buffer + chunk;
    TailOfAppend(buffer, received, chunk);
    TailOfTail(all, received + chunk, |all| - |Ingest(buffer, chunk).buffer|);
  }

  lemma TailOfTail(all: seq<uint8>, received: seq<uint8>, k: nat)
    requires IsTail(all, received) && k <= |all|
    ensures IsTail(all[k..], received) && IsTail([], received)
  {
    assert all[k..] == received[|received| - |all[k..]|..];
  }

  class Proxy {
    const config: ChannelConfig
    const name: string
    var connected: bool
    /** The subscribed websocket clients. */
    var sockets: seq<Client>
    /** Bytes received but not yet consumed as a packet. */
    var buffer: seq<uint8>
    /** The handshake commands not yet written; the next one is the last. */
    var commands: seq<seq<uint8>>
    /** Every command written to the Seedlink server, in order. */
    ghost var written: seq<seq<uint8>>
    /** The commands written since the last connection was opened. */
    ghost var handshake: seq<seq<uint8>>
    /** A connection has been opened at least once. */
    ghost var started: bool
    /** Every data byte appended to the buffer, in order. */
    ghost var received: seq<uint8>
    /** Every record message sent to a websocket client, in order. */
    ghost var deliveries: seq<Delivery>

    /** The handshake written so far and the commands still queued make up the whole
        handshake, and the buffer is the unconsumed tail of the received data. */
    ghost predicate Valid()
      reads this
    {
      && name == config.name
      && HandshakeQueued(config.selectors, started, handshake, commands)
      && IsTail(buffer, received)
    }

    constructor(cfg: ChannelConfig)
      ensures Valid()
      ensures config == cfg && !connected && sockets == [] && buffer == [] && commands == []
      ensures written == [] && !started && received == [] && deliveries == []
    {
      config := cfg;
      name := cfg.name;
      connected := false;
      sockets := [];
      buffer := [];
      commands := [];
      written := [];
      handshake := [];
      started := false;
      received := [];
      deliveries := [];
    }

    /** `getStreamCommands()`. */
    method GetStreamCommands() returns (cmds: seq<seq<uint8>>)
      ensures cmds == StreamCommands(config.selectors)
    {
      var sel := config.selectors;
      var text := ["END"];
      for k := 0 to |sel|
        invariant text == StreamCommandStrings(sel[..k])
      {
        StreamCommandStringsStep(sel, k);
        text := text + ["DATA"];
        text := text + ["SELECT " + sel[k].location + sel[k].channel + ".D"];
        text := text + ["STATION " + sel[k].station + " " + sel[k].network];
      }
      assert sel[..|sel|] == sel;
      cmds := [];
      for i := 0 to |text|
        invariant cmds == Converted(text[..i])
      {
        cmds := cmds + [ConvertCommand(text[i])];
      }
      assert text[..|text|] == text;
    }

    /** The connect callback: mark connected, queue the handshake and write its first
        command. */
    method OnConnect()
      requires Valid()
      modifies this
      ensures Valid()
      ensures var all := StreamCommands(config.selectors);
              && connected && started
              && commands == all[..|all| - 1]
              && written == old(written) + [all[|all| - 1]]
              && handshake == [all[|all| - 1]]
      ensures sockets == old(sockets) && buffer == old(buffer)
      ensures received == old(received) && deliveries == old(deliveries)
    {
      var all := GetStreamCommands();
      ConnectQueues(config.selectors);
      var first := all[|all| - 1];
      connected, started := true, true;
      commands, written, handshake := all[..|all| - 1], written + [first], [first];
    }

    /** The data handler. An exact "OK" CR LF while commands are queued writes the next
        command; any other chunk is appended to the buffer and may yield a packet. */
    method OnData(chunk: seq<uint8>)
      requires Valid()
      modifies this
      ensures Valid()
      ensures old(chunk == SeedlinkOk && |commands| > 0) ==>
                && commands == old(commands[..|commands| - 1])
                && written == old(written + [commands[|commands| - 1]])
                && handshake == old(handshake + [commands[|commands| - 1]])
                && buffer == old(buffer) && received == old(received)
                && deliveries == old(deliveries)
      ensures old(!(chunk == SeedlinkOk && |commands| > 0)) ==>
                var step := Ingest(old(buffer), chunk);
                && buffer == step.buffer
                && received == old(received) + chunk
                && deliveries == old(deliveries) + (if step.emitted.Some? then Fanout(sockets, step.emitted.value) else [])
                && commands == old(commands) && written == old(written)
                && handshake == old(handshake)
      ensures connected == old(connected) && sockets == old(sockets) && started == old(started)
    {
      if chunk == SeedlinkOk && |commands| > 0 {
        WriteNextCommand();
        return;
      }
      ReceiveData(chunk);
    }

    /** Writes the next queued handshake command. */
    method WriteNextCommand()
      requires Valid() && |commands| > 0
      modifies this
      ensures Valid()
      ensures commands == old(commands[..|commands| - 1])
      ensures written == old(written + [commands[|commands| - 1]])
      ensures handshake == old(handshake + [commands[|commands| - 1]])
      ensures buffer == old(buffer) && received == old(received) && deliveries == old(deliveries)
      ensures connected == old(connected) && sockets == old(sockets) && started == old(started)
    {
      var next := commands[|commands| - 1];
      SplitLast(commands);
      commands, written, handshake := commands[..|commands| - 1], written + [next], handshake + [next];
    }

    /** Appends a data chunk to the buffer and handles at most one whole packet. */
    method ReceiveData(chunk: seq<uint8>)
      requires Valid()
      modifies this
      ensures Valid()
      ensures var step := Ingest(old(buffer), chunk);
              && buffer == step.buffer
              && received == old(received) + chunk
              && deliveries == old(deliveries) + (if step.emitted.Some? then Fanout(sockets, step.emitted.value) else [])
      ensures commands == old(commands) && written == old(written) && handshake == old(handshake)
      ensures connected == old(connected) && sockets == old(sockets) && started == old(started)
    {
      var step := Consume(buffer, chunk);
      IngestKeepsTail(buffer, received, chunk);
      Absorb(chunk, step);
    }

    /** Records the chunk, broadcasts what `step` emitted and keeps what it buffered. */
    method Absorb(chunk: seq<uint8>, step: Step)
      requires Valid() && IsTail(step.buffer, received + chunk)
      modifies this
      ensures Valid()
      ensures && buffer == step.buffer
              && received == old(received) + chunk
              && deliveries == old(deliveries) + (if step.emitted.Some? then Fanout(sockets, step.emitted.value) else [])
      ensures commands == old(commands) && written == old(written) && handshake == old(handshake)
      ensures connected == old(connected) && sockets == old(sockets) && started == old(started)
    {
      if step.emitted.Some? {
        Broadcast(step.emitted.value);
      }
      buffer, received := step.buffer, received + chunk;
    }

    /** `broadcast`: send the payload to every subscribed client, in subscription order. */
    method Broadcast(p: MSeedRecord.Payload)
      modifies this
      ensures deliveries == old(deliveries) + Fanout(sockets, p)
      ensures sockets == old(sockets) && buffer == old(buffer) && commands == old(commands)
      ensures connected == old(connected) && written == old(written) && handshake == old(handshake)
      ensures started == old(started) && received == old(received)
    {
      ghost var start := deliveries;
      for i := 0 to |sockets|
        invariant deliveries == start + Fanout(sockets[..i], p)
        invariant sockets == old(sockets) && buffer == old(buffer) && commands == old(commands)
        invariant connected == old(connected) && written == old(written) && handshake == old(handshake)
        invariant started == old(started) && received == old(received)
      {
        deliveries := deliveries + [Delivery(sockets[i], p)];
      }
      assert sockets[..|sockets|] == sockets;
    }

    /** The socket's close handler. */
    method OnClose()
      modifies this
      ensures !connected
      ensures sockets == old(sockets) && buffer == old(buffer) && commands == old(commands)
      ensures written == old(written) && handshake == old(handshake) && started == old(started)
      ensures received == old(received) && deliveries == old(deliveries)
    {
      connected := false;
    }

    /** `disconnect`: say goodbye to the server (the socket is then destroyed). */
    method Disconnect()
      modifies this
      ensures written == old(written) + [ConvertCommand("BYE")]
      ensures connected == old(connected) && sockets == old(sockets) && buffer == old(buffer)
      ensures commands == old(commands) && handshake == old(handshake) && started == old(started)
      ensures received == old(received) && deliveries == old(deliveries)
    {
      written := written + [ConvertCommand("BYE")];
    }
  }

  /** Once every queued command has been acknowledged, the commands written since the
      connection opened are exactly the handshake in send order. */
  lemma HandshakeComplete(p: Proxy)
    requires p.Valid() && p.started && p.commands == []
    ensures p.handshake == Converted(SendOrder(p.config.selectors))
  {
    HandshakeOrder(p.config.selectors);
    ReverseConverted(StreamCommandStrings(p.config.selectors));
    assert p.handshake + Reverse(p.commands) == p.handshake;
  }
}
