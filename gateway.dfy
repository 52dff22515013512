/** The websocket gateway: it creates one Seedlink proxy per configured channel, answers
    the JSON messages of websocket clients (subscribe, unsubscribe, list the channels),
    reports every failure back to the client as an error reply, and keeps clients alive
    with a ping/pong heartbeat. */
module Gateway {
  import opened Wrappers
  import opened Strings
  import opened Json
  import opened Clients
  import opened SeedlinkProxy

  /** A JavaScript `Error`: its constructor name and its message. */
  datatype JsError = JsError(kind: string, message: string)

  /** The first line of `error.stack`; the stack frames are not modelled. */
  function Stack(e: JsError): string {
    e.kind + ": " + e.message
  }

  const Operations: seq<string> := ["subscribe", "unsubscribe", "channels"]

  /** The error for a message with a key outside `Operations`; its message lists the
      operations joined by ", ". */
  const InvalidOperation := JsError("Error", "Invalid operation requested. Expected: subscribe, unsubscribe, channels")

  const NullKeys := JsError("TypeError", "Cannot convert undefined or null to object")

  /** What the "write" listener throws when it logs a reply that has no `data`. */
  const MissingData := JsError("TypeError", "Cannot read properties of undefined (reading 'length')")

  /** What is emitted on a client's "write" event: a thrown error or a string. */
  datatype Outgoing = Thrown(error: JsError) | Text(text: string)

  /** The JSON object written back: `{"error": ...}` or `{"success": ...}`. */
  datatype Reply = ErrorReply(error: string) | SuccessReply(success: string)

  function ReplyText(r: Reply): string {
    match r
    case ErrorReply(e) => e
    case SuccessReply(s) => s
  }

  /** `mapMessage`: errors become error replies (with the stack in debug mode), strings
      become success replies. */
  function MapMessage(o: Outgoing, debug: bool): (r: Reply)
    ensures r.ErrorReply? <==> o.Thrown?
    ensures o.Thrown? ==> r.error == if debug then Stack(o.error) else o.error.message
    ensures o.Text? ==> r.success == o.text
  {
    match o
    case Thrown(e) => ErrorReply(if debug then Stack(e) else e.message)
    case Text(s) => SuccessReply(s)
  }

  /** The "write" listener: a reply with neither a truthy `success` nor a truthy `error`
      is taken for a record and logged, and reading its missing `data` throws before
      anything is sent. */
  function WriteOutcome(o: Outgoing, debug: bool): (r: Result<Reply, JsError>)
    ensures r.Err? <==> ReplyText(MapMessage(o, debug)) == ""
    ensures r.Err? ==> r.error == MissingData
    ensures r.Ok? ==> r.value == MapMessage(o, debug)
  {
    var reply := MapMessage(o, debug);
    if ReplyText(reply) == "" then Err(MissingData) else Ok(reply)
  }

  /** An error with a message is always written back to the client. */
  lemma ErrorsAreWritten(e: JsError, debug: bool)
    requires e.message != ""
    ensures WriteOutcome(Thrown(e), debug) == Ok(ErrorReply(if debug then Stack(e) else e.message))
  {
  }

  /** The operations a message asks for, in the order they are carried out. */
  datatype Requests = Requests(subscribe: Option<Value>, unsubscribe: Option<Value>, channels: bool)

  function IfTruthy(v: Option<Value>): (r: Option<Value>)
    ensures r.Some? <==> Truthy(v)
    ensures r.Some? ==> r == v
  {
    if Truthy(v) then v else None
  }

  /** The checks `handleIncomingMessage` makes before acting: the text must parse, and
      every own key of the parsed value must name an operation. */
  function Plan(message: Result<Value, string>): (r: Result<Requests, JsError>)
    ensures message.Err? ==> r == Err(JsError("SyntaxError", message.error))
    ensures message.Ok? ==>
              (r.Err? <==> message.value.Null? || exists k :: k in OwnKeys(message.value).value && k !in Operations)
    ensures message.Ok? && message.value.Null? ==> r == Err(NullKeys)
    ensures message.Ok? && r.Err? && !message.value.Null? ==> r.error == InvalidOperation
    ensures r.Ok? ==>
              && message.Ok?
              && (r.value.subscribe.Some? <==> Truthy(Get(message.value, "subscribe")))
              && (r.value.unsubscribe.Some? <==> Truthy(Get(message.value, "unsubscribe")))
              && (r.value.channels <==> Truthy(Get(message.value, "channels")))
  {
    match message
    case Err(text) => Err(JsError("SyntaxError", text))
    case Ok(json) =>
      match OwnKeys(json)
      case None => Err(NullKeys)
      case Some(keys) =>
        if exists k :: k in keys && k !in Operations then Err(InvalidOperation)
        else Ok(Requests(IfTruthy(Get(json, "subscribe")), IfTruthy(Get(json, "unsubscribe")), Truthy(Get(json, "channels"))))
  }

  /** A non-empty string or array is refused: its first index is a key. */
  lemma IndexedValuesRefused(v: Value)
    requires (v.Str? && v.s != []) || (v.Arr? && v.items != [])
    ensures Plan(Ok(v)) == Err(InvalidOperation)
  {
    assert NatToString(0) in OwnKeys(v).value;
    assert NatToString(0) == "0";
  }

  /** An empty object passes the check and asks for nothing. */
  lemma EmptyObjectAccepted()
    ensures Plan(Ok(Obj(map[]))) == Ok(Requests(None, None, false))
  {
  }

  /** A call the gateway makes on a proxy; the proxy's own socket list is not modelled. */
  datatype ProxyCall = AddSocket(proxy: Proxy, client: Client) | RemoveSocket(proxy: Proxy, client: Client)

  /** A reply sent to a client. */
  datatype Sent = Sent(to: Client, reply: Reply)

  /** What handling one event does: the proxy calls, the replies sent, and the error that
      escapes, if any. */
  datatype Outcome = Outcome(calls: seq<ProxyCall>, sent: seq<Sent>, thrown: Option<JsError>)

  const Nothing := Outcome([], [], None)

  /** `a` then `b`, unless `a` throws. */
  function Then(a: Outcome, b: Outcome): (r: Outcome)
    ensures a.thrown.Some? ==> r == a
    ensures a.thrown.None? ==> r == Outcome(a.calls + b.calls, a.sent + b.sent, b.thrown)
  {
    if a.thrown.Some? then a else Outcome(a.calls + b.calls, a.sent + b.sent, b.thrown)
  }

  /** `socket.emit("write", o)`. */
  function WriteEffect(c: Client, o: Outgoing, debug: bool): (r: Outcome)
    ensures r.calls == []
  {
    match WriteOutcome(o, debug)
    case Ok(reply) => Outcome([], [Sent(c, reply)], None)
    case Err(e) => Outcome([], [], Some(e))
  }

  /** `subscribe(channel, socket)` when `add`, `unsubscribe(channel, socket)` otherwise:
      the channel value is looked up by its string conversion. */
  function SubscriptionEffect(channels: map<string, Proxy>, debug: bool, c: Client, add: bool, channel: Value): (r: Outcome)
    ensures ToStr(channel) in channels ==>
              r == Outcome([if add then AddSocket(channels[ToStr(channel)], c) else RemoveSocket(channels[ToStr(channel)], c)], [], None)
    ensures ToStr(channel) !in channels ==>
              && r.calls == [] && r.thrown.None?
              && r.sent == [Sent(c, MapMessage(Thrown(JsError("Error",
                   (if add then "Invalid channel subscription requested: " else "Invalid channel unsubscription requested: ")
                   + ToStr(channel))), debug))]
  {
    var key := ToStr(channel);
    if key in channels then
      Outcome([if add then AddSocket(channels[key], c) else RemoveSocket(channels[key], c)], [], None)
    else
      var text := if add then "Invalid channel subscription requested: " else "Invalid channel unsubscription requested: ";
      WriteEffect(c, Thrown(JsError("Error", text + key)), debug)
  }

  /** The reply to `{"channels": ...}`: the configured channel names, sorted, joined
      by a space. */
  function ChannelsReply(names: seq<string>): (r: string)
    ensures names == [] ==> r == ""
    ensures names != [] && (forall k :: 0 <= k < |names| ==> ' ' !in names[k]) ==>
              && Sorted(Split(r, ' '))
              && multiset(Split(r, ' ')) == multiset(names)
  {
    ListingSplits(names);
    Join(Sort(names), " ")
  }

  /** Names free of spaces can be read back from the listing: split at the spaces it
      gives every configured name once, in sorted order. */
  lemma ListingSplits(names: seq<string>)
    ensures names != [] && (forall k :: 0 <= k < |names| ==> ' ' !in names[k]) ==>
              Split(Join(Sort(names), " "), ' ') == Sort(names)
  {
    if names != [] && (forall k :: 0 <= k < |names| ==> ' ' !in names[k]) {
      var sorted := Sort(names);
      forall k | 0 <= k < |sorted|
        ensures ' ' !in sorted[k]
      {
        assert sorted[k] in multiset(names);
      }
      assert |sorted| == |multiset(names)| == |names|;
      SplitJoin(sorted, ' ');
    }
  }

  /** The operations of an accepted message, in order: subscribe, unsubscribe, list
      the channels; the first that throws ends the handling. */
  function RequestsEffect(channels: map<string, Proxy>, names: seq<string>, debug: bool, c: Client, req: Requests): (r: Outcome)
    ensures |r.calls| <= 2
    ensures CallsFor(channels, c, r)
  {
    var sub := StepEffect(channels, debug, c, true, req.subscribe);
    var unsub := StepEffect(channels, debug, c, false, req.unsubscribe);
    var list := if req.channels then WriteEffect(c, Text(ChannelsReply(names)), debug) else Nothing;
    ForClient(channels, c, sub, unsub, list);
    Then(Then(sub, unsub), list)
  }

  /** What the "message" listener's `catch` does with what `handleIncomingMessage` threw. */
  function ReportEffect(c: Client, thrown: Option<JsError>, debug: bool): Outcome {
    if thrown.Some? then WriteEffect(c, Thrown(thrown.value), debug) else Nothing
  }

  /** Every proxy call of `o` is for client `c` on a configured proxy. */
  predicate CallsFor(channels: map<string, Proxy>, c: Client, o: Outcome) {
    forall k :: 0 <= k < |o.calls| ==> o.calls[k].client == c && o.calls[k].proxy in channels.Values
  }

  lemma ForClient(channels: map<string, Proxy>, c: Client, a: Outcome, b: Outcome, d: Outcome)
    requires CallsFor(channels, c, a) && CallsFor(channels, c, b) && d.calls == []
    ensures CallsFor(channels, c, Then(Then(a, b), d))
    ensures |Then(Then(a, b), d).calls| <= |a.calls| + |b.calls|
  {
    var t := Then(a, b);
    assert CallsFor(channels, c, t) by {
      if a.thrown.None? {
        forall k | 0 <= k < |t.calls|
          ensures t.calls[k].client == c && t.calls[k].proxy in channels.Values
        {
          if k >= |a.calls| {
            assert t.calls[k] == b.calls[k - |a.calls|];
          }
        }
      }
    }
    if t.thrown.None? {
      assert Then(t, d).calls == t.calls;
    }
  }

  /** Running `b` after `a` has not thrown extends the traces by `Then(a, b)`. */
  lemma ThenTraces(calls0: seq<ProxyCall>, sent0: seq<Sent>, a: Outcome, b: Outcome)
    requires a.thrown.None?
    ensures calls0 + a.calls + b.calls == calls0 + Then(a, b).calls
    ensures sent0 + a.sent + b.sent == sent0 + Then(a, b).sent
    ensures Then(a, b).thrown == b.thrown
  {
  }

  /** The subscribe or unsubscribe step of an accepted message, when it asks for one. */
  function StepEffect(channels: map<string, Proxy>, debug: bool, c: Client, add: bool, channel: Option<Value>): (r: Outcome)
    ensures |r.calls| <= 1
    ensures CallsFor(channels, c, r)
  {
    if channel.Some? then SubscriptionEffect(channels, debug, c, add, channel.value) else Nothing
  }

  /** `handleIncomingMessage(socket, message)`. */
  function MessageEffect(channels: map<string, Proxy>, names: seq<string>, debug: bool, c: Client, message: Result<Value, string>): (r: Outcome)
    ensures Plan(message).Err? ==> r == Outcome([], [], Some(Plan(message).error))
    ensures |r.calls| <= 2
    ensures forall k :: 0 <= k < |r.calls| ==> r.calls[k].client == c && r.calls[k].proxy in channels.Values
  {
    match Plan(message)
    case Err(e) => Outcome([], [], Some(e))
    case Ok(req) => RequestsEffect(channels, names, debug, c, req)
  }

  /** The "message" listener: whatever `handleIncomingMessage` throws is written back to
      the client; what the write itself throws escapes the listener. */
  function ReceiveEffect(channels: map<string, Proxy>, names: seq<string>, debug: bool, c: Client, message: Result<Value, string>): Outcome {
    var m := MessageEffect(channels, names, debug, c, message);
    Then(Outcome(m.calls, m.sent, None), ReportEffect(c, m.thrown, debug))
  }

  /** A message naming anything but the three operations is answered with one error
      reply and reaches no proxy. */
  lemma InvalidOperationAnswered(channels: map<string, Proxy>, names: seq<string>, c: Client, fields: map<string, Value>, k: string)
    requires k in fields && k !in Operations
    ensures ReceiveEffect(channels, names, false, c, Ok(Obj(fields)))
         == Outcome([], [Sent(c, ErrorReply(InvalidOperation.message))], None)
  {
    assert Plan(Ok(Obj(fields))).Err?;
  }

  /** Text that does not parse is answered with the parser's message as an error reply. */
  lemma SyntaxErrorAnswered(channels: map<string, Proxy>, names: seq<string>, c: Client, text: string)
    requires text != ""
    ensures ReceiveEffect(channels, names, false, c, Err(text)) == Outcome([], [Sent(c, ErrorReply(text))], None)
  {
  }

  /** Subscribing to a configured channel adds the client to its proxy and sends nothing
      back. */
  lemma SubscribeConfigured(channels: map<string, Proxy>, names: seq<string>, debug: bool, c: Client, name: string)
    requires name in channels && name != ""
    ensures ReceiveEffect(channels, names, debug, c, Ok(Obj(map["subscribe" := Str(name)])))
         == Outcome([AddSocket(channels[name], c)], [], None)
  {
    var v := Obj(map["subscribe" := Str(name)]);
    assert OwnKeys(v).value == {"subscribe"};
    assert Plan(Ok(v)) == Ok(Requests(Some(Str(name)), None, false));
  }

  /** Subscribing to anything else is answered with an error reply naming it. */
  lemma SubscribeUnknown(channels: map<string, Proxy>, names: seq<string>, c: Client, name: string)
    requires name !in channels && name != ""
    ensures ReceiveEffect(channels, names, false, c, Ok(Obj(map["subscribe" := Str(name)])))
         == Outcome([], [Sent(c, ErrorReply("Invalid channel subscription requested: " + name))], None)
  {
    var v := Obj(map["subscribe" := Str(name)]);
    assert OwnKeys(v).value == {"subscribe"};
    assert Plan(Ok(v)) == Ok(Requests(Some(Str(name)), None, false));
  }

  /** Unsubscribing from anything else is answered with an error reply naming it, in
      debug mode with the error's stack line. */
  lemma UnsubscribeUnknown(channels: map<string, Proxy>, names: seq<string>, debug: bool, c: Client, name: string)
    requires name !in channels && name != ""
    ensures var e := JsError("Error", "Invalid channel unsubscription requested: " + name);
            ReceiveEffect(channels, names, debug, c, Ok(Obj(map["unsubscribe" := Str(name)])))
            == Outcome([], [Sent(c, ErrorReply(if debug then Stack(e) else e.message))], None)
  {
    var v := Obj(map["unsubscribe" := Str(name)]);
    assert OwnKeys(v).value == {"unsubscribe"};
    assert Plan(Ok(v)) == Ok(Requests(None, Some(Str(name)), false));
  }

  /** Subscribing and unsubscribing in one message: subscribe runs first. */
  lemma SubscribeThenUnsubscribe(channels: map<string, Proxy>, names: seq<string>, debug: bool, c: Client, a: string, b: string)
    requires a in channels && b in channels && a != "" && b != ""
    ensures ReceiveEffect(channels, names, debug, c, Ok(Obj(map["subscribe" := Str(a), "unsubscribe" := Str(b)])))
         == Outcome([AddSocket(channels[a], c), RemoveSocket(channels[b], c)], [], None)
  {
    var v := Obj(map["subscribe" := Str(a), "unsubscribe" := Str(b)]);
    assert OwnKeys(v).value == {"subscribe", "unsubscribe"};
    assert Plan(Ok(v)) == Ok(Requests(Some(Str(a)), Some(Str(b)), false));
  }

  /** Asking for the channels is answered with the sorted names; with no channel
      configured the empty answer is taken for a record, and the client gets the
      resulting TypeError instead. */
  lemma ChannelsAnswered(channels: map<string, Proxy>, names: seq<string>, c: Client)
    ensures var r := ReceiveEffect(channels, names, false, c, Ok(Obj(map["channels" := Bool(true)])));
            && r.calls == [] && r.thrown == None
            && (ChannelsReply(names) != "" ==> r.sent == [Sent(c, SuccessReply(ChannelsReply(names)))])
            && (names == [] ==> r.sent == [Sent(c, ErrorReply(MissingData.message))])
  {
    var v := Obj(map["channels" := Bool(true)]);
    assert OwnKeys(v).value == {"channels"};
    assert Plan(Ok(v)) == Ok(Requests(None, None, true));
    var w := WriteEffect(c, Text(ChannelsReply(names)), false);
    var m := MessageEffect(channels, names, false, c, Ok(v));
    assert m == Then(Then(Nothing, Nothing), w);
    assert m.calls == [] && m.sent == w.sent && m.thrown == w.thrown;
    if names == [] {
      assert Sort(names) == [];
      assert w == Outcome([], [], Some(MissingData));
    } else if ChannelsReply(names) != "" {
      assert w.thrown == None;
    }
  }

  lemma {:induction false} SortedUnique(a: seq<string>, b: seq<string>)
    requires Sorted(a) && Sorted(b) && multiset(a) == multiset(b)
    ensures a == b
  {
    if a == [] {
      assert |b| == |multiset(b)| == 0;
    } else {
      assert |b| == |multiset(b)| == |a|;
      SameFirst(a, b);
      SameRest(a, b);
      SortedUnique(a[1..], b[1..]);
      assert a == [a[0]] + a[1..];
      assert b == [b[0]] + b[1..];
    }
  }

  lemma SameFirst(a: seq<string>, b: seq<string>)
    requires Sorted(a) && Sorted(b) && multiset(a) == multiset(b) && |a| > 0
    ensures |b| > 0 && a[0] == b[0]
  {
    assert a[0] in multiset(b);
    assert b[0] in multiset(a);
    var i :| 0 <= i < |b| && b[i] == a[0];
    var j :| 0 <= j < |a| && a[j] == b[0];
    if i > 0 && j > 0 {
      assert Below(b[0], b[i]) && Below(a[0], a[j]);
      BelowAntisymmetric(a[0], b[0]);
    }
  }

  lemma SameRest(a: seq<string>, b: seq<string>)
    requires Sorted(a) && Sorted(b) && multiset(a) == multiset(b) && |a| > 0 && |b| > 0 && a[0] == b[0]
    ensures Sorted(a[1..]) && Sorted(b[1..]) && multiset(a[1..]) == multiset(b[1..])
  {
    assert a == [a[0]] + a[1..];
    assert b == [b[0]] + b[1..];
    assert multiset(a[1..]) == multiset(a) - multiset{a[0]};
    assert multiset(b[1..]) == multiset(b) - multiset{a[0]};
  }

  /** The channel listing does not depend on the order in which channels were
      configured. */
  lemma ChannelsReplyOrderFree(a: seq<string>, b: seq<string>)
    requires multiset(a) == multiset(b)
    ensures ChannelsReply(a) == ChannelsReply(b)
  {
    SortedUnique(Sort(a), Sort(b));
  }

  /** Three channels configured as A, C and B, in any order, are listed as "A B C". */
  lemma ChannelsReplyExample(names: seq<string>)
    requires multiset(names) == multiset{"A", "B", "C"}
    ensures ChannelsReply(names) == "A B C"
  {
    SortAbc(names);
    JoinAbc();
  }

  lemma JoinAbc()
    ensures Join(["A", "B", "C"], " ") == "A B C"
  {
    var abc: seq<string> := ["A", "B", "C"];
    assert abc[1..] == ["B", "C"] && abc[1..][1..] == ["C"];
    assert Join(["B", "C"], " ") == "B" + " " + "C" == "B C";
    assert Join(abc, " ") == "A" + " " + "B C" == "A B C";
  }

  lemma SortAbc(names: seq<string>)
    requires multiset(names) == multiset{"A", "B", "C"}
    ensures Sort(names) == ["A", "B", "C"]
  {
    SortedAbc();
    assert multiset(["A", "B", "C"]) == multiset{"A", "B", "C"};
    SortedUnique(["A", "B", "C"], Sort(names));
  }

  lemma SortedAbc()
    ensures Sorted(["A", "B", "C"])
  {
    assert Below("A", "B") && Below("B", "C") && Below("A", "C");
  }

  function Names(configs: seq<ChannelConfig>): (r: seq<string>)
    ensures |r| == |configs| && forall i :: 0 <= i < |configs| ==> r[i] == configs[i].name
  {
    seq(|configs|, i requires 0 <= i < |configs| => configs[i].name)
  }

  predicate Distinct(s: seq<string>) {
    forall i, j :: 0 <= i < j < |s| ==> s[i] != s[j]
  }

  /** `Object.keys` order of an object whose properties were assigned in the order `ns`:
      each name where it was first assigned. */
  function KeyOrder(ns: seq<string>): (r: seq<string>)
    ensures forall k :: k in r <==> k in ns
    ensures Distinct(r)
  {
    if ns == [] then []
    else
      var r := KeyOrder(ns[..|ns| - 1]);
      if ns[|ns| - 1] in r then r else r + [ns[|ns| - 1]]
  }

  /** The position of the configuration entry a channel name ends up with: the last
      entry of that name. */
  function LastIndex(configs: seq<ChannelConfig>, name: string): (i: nat)
    requires name in Names(configs)
    ensures i < |configs| && configs[i].name == name
    ensures forall j :: i < j < |configs| ==> configs[j].name != name
  {
    var n := |configs| - 1;
    if configs[n].name == name then n
    else
      assert Names(configs) == Names(configs[..n]) + [configs[n].name];
      LastIndex(configs[..n], name)
  }

  lemma KeyOrderStep(ns: seq<string>, n: string)
    ensures KeyOrder(ns + [n]) == if n in KeyOrder(ns) then KeyOrder(ns) else KeyOrder(ns) + [n]
  {
    assert (ns + [n])[..|ns|] == ns;
  }

  lemma LastIndexStep(configs: seq<ChannelConfig>, i: nat)
    requires i < |configs|
    ensures LastIndex(configs[..i + 1], configs[i].name) == i
    ensures forall k :: k in Names(configs[..i]) && k != configs[i].name ==>
              k in Names(configs[..i + 1]) && LastIndex(configs[..i + 1], k) == LastIndex(configs[..i], k)
  {
    var front := configs[..i + 1];
    assert front[..i] == configs[..i];
    forall k | k in Names(configs[..i]) && k != configs[i].name
      ensures k in Names(front) && LastIndex(front, k) == LastIndex(configs[..i], k)
    {
      assert Names(front) == Names(configs[..i]) + [configs[i].name];
    }
  }

  /** Each proxy is stored under its own name, and `names` lists every key once. */
  ghost predicate Indexed(channels: map<string, Proxy>, names: seq<string>) {
    && (forall k :: k in channels ==> channels[k].name == k)
    && Distinct(names)
    && (forall i :: 0 <= i < |names| ==> names[i] in channels)
    && (forall k :: k in channels ==> k in names)
  }

  /** `channels` and its key order `names` hold a proxy for each configured name, built
      from the last entry of that name. */
  ghost predicate Registered(channels: map<string, Proxy>, names: seq<string>, configs: seq<ChannelConfig>) {
    && names == KeyOrder(Names(configs))
    && (forall k :: k in channels <==> k in Names(configs))
    && (forall k :: k in channels ==> channels[k].name == k && channels[k].config == configs[LastIndex(configs, k)])
  }

  lemma RegisteredStep(channels: map<string, Proxy>, names: seq<string>, configs: seq<ChannelConfig>, i: nat, proxy: Proxy)
    requires i < |configs| && Registered(channels, names, configs[..i])
    requires proxy.name == configs[i].name && proxy.config == configs[i]
    ensures var name := configs[i].name;
      Registered(channels[name := proxy], if name in channels then names else names + [name], configs[..i + 1])
  {
    var cfg := configs[i];
    assert configs[..i + 1][..i] == configs[..i];
    assert Names(configs[..i + 1]) == Names(configs[..i]) + [cfg.name];
    KeyOrderStep(Names(configs[..i]), cfg.name);
    LastIndexStep(configs, i);
    var after := channels[cfg.name := proxy];
    forall k | k in after
      ensures after[k].name == k && after[k].config == configs[..i + 1][LastIndex(configs[..i + 1], k)]
    {
      if k != cfg.name {
        assert after[k] == channels[k];
      }
    }
  }

  lemma RegisteredIndexed(channels: map<string, Proxy>, names: seq<string>, configs: seq<ChannelConfig>)
    requires Registered(channels, names, configs)
    ensures Indexed(channels, names)
  {
  }

  /** Unsubscribing from a configured channel removes the client from its proxy. */
  lemma RemoveKnown(channels: map<string, Proxy>, debug: bool, c: Client, k: string)
    requires k in channels
    ensures SubscriptionEffect(channels, debug, c, false, Str(k)) == Outcome([RemoveSocket(channels[k], c)], [], None)
  {
    assert ToStr(Str(k)) == k;
  }

  /** The proxy calls of `unsubscribeAll`: a removal from every channel, in key order. */
  function CloseCalls(channels: map<string, Proxy>, names: seq<string>, c: Client): (r: seq<ProxyCall>)
    requires forall i :: 0 <= i < |names| ==> names[i] in channels
    ensures |r| == |names| && forall i :: 0 <= i < |names| ==> r[i] == RemoveSocket(channels[names[i]], c)
  {
    seq(|names|, i requires 0 <= i < |names| => RemoveSocket(channels[names[i]], c))
  }

  /** Closing a client removes it from every configured channel. */
  lemma CloseLeavesEveryChannel(channels: map<string, Proxy>, names: seq<string>, c: Client, k: string)
    requires forall i :: 0 <= i < |names| ==> names[i] in channels
    requires k in channels && k in names
    ensures RemoveSocket(channels[k], c) in CloseCalls(channels, names, c)
  {
    var i :| 0 <= i < |names| && names[i] == k;
    assert CloseCalls(channels, names, c)[i] == RemoveSocket(channels[k], c);
  }

  class SeedlinkWebsocket {
    /** `configuration.__DEBUG__`: error replies carry the stack. */
    const debug: bool
    /** `this.channels`: a proxy per channel name. */
    var channels: map<string, Proxy>
    /** The keys of `this.channels` in insertion order. */
    var names: seq<string>
    /** Every call made on a proxy, in order. */
    ghost var calls: seq<ProxyCall>
    /** Every reply written to a client, in order. */
    ghost var sent: seq<Sent>
    /** Every error that escaped a listener, in order. */
    ghost var uncaught: seq<JsError>

    ghost predicate Valid()
      reads this
    {
      Indexed(channels, names)
    }

    constructor(debugMode: bool, configs: seq<ChannelConfig>)
      ensures Valid() && debug == debugMode && Registered(channels, names, configs)
      ensures calls == [] && sent == [] && uncaught == []
    {
      debug := debugMode;
      channels := map[];
      names := [];
      calls := [];
      sent := [];
      uncaught := [];
      new;
      CreateSeedlinkProxies(configs);
    }

    /** `createSeedlinkProxies`: a proxy per configuration entry; a later entry with the
        same name replaces the earlier proxy and keeps its place in key order. */
    method CreateSeedlinkProxies(configs: seq<ChannelConfig>)
      modifies this
      ensures Valid() && Registered(channels, names, configs)
      ensures calls == old(calls) && sent == old(sent) && uncaught == old(uncaught)
    {
      var ch: map<string, Proxy> := map[];
      var ns: seq<string> := [];
      for i := 0 to |configs|
        invariant Registered(ch, ns, configs[..i])
        invariant calls == old(calls) && sent == old(sent) && uncaught == old(uncaught)
      {
        var cfg := configs[i];
        var proxy := new Proxy(cfg);
        RegisteredStep(ch, ns, configs, i, proxy);
        ns := if cfg.name in ch then ns else ns + [cfg.name];
        ch := ch[cfg.name := proxy];
      }
      assert configs[..|configs|] == configs;
      RegisteredIndexed(ch, ns, configs);
      channels, names := ch, ns;
    }

    /** `channelExists`: `hasOwnProperty` converts the value to a string. */
    predicate ChannelExists(channel: Value)
      reads this
      ensures channel.Str? ==> (ChannelExists(channel) <==> channel.s in channels)
      ensures channel.Null? ==> (ChannelExists(channel) <==> "null" in channels)
    {
      ToStr(channel) in channels
    }

    /** `socket.emit("write", o)`. */
    method Write(c: Client, o: Outgoing) returns (thrown: Option<JsError>)
      modifies this
      ensures var e := WriteEffect(c, o, debug);
              sent == old(sent) + e.sent && thrown == e.thrown
      ensures channels == old(channels) && names == old(names)
      ensures calls == old(calls) && uncaught == old(uncaught)
    {
      var reply := MapMessage(o, debug);
      if ReplyText(reply) == "" {
        return Some(MissingData);
      }
      sent := sent + [Sent(c, reply)];
      return None;
    }

    /** `subscribe(channel, socket)`. */
    method Subscribe(channel: Value, c: Client) returns (thrown: Option<JsError>)
      modifies this
      ensures var e := SubscriptionEffect(old(channels), debug, c, true, channel);
              calls == old(calls) + e.calls && sent == old(sent) + e.sent && thrown == e.thrown
      ensures channels == old(channels) && names == old(names) && uncaught == old(uncaught)
    {
      if !ChannelExists(channel) {
        thrown := Write(c, Thrown(JsError("Error", "Invalid channel subscription requested: " + ToStr(channel))));
        return;
      }
      calls := calls + [AddSocket(channels[ToStr(channel)], c)];
      return None;
    }

    /** `unsubscribe(channel, socket)`. */
    method Unsubscribe(channel: Value, c: Client) returns (thrown: Option<JsError>)
      modifies this
      ensures var e := SubscriptionEffect(old(channels), debug, c, false, channel);
              calls == old(calls) + e.calls && sent == old(sent) + e.sent && thrown == e.thrown
      ensures channels == old(channels) && names == old(names) && uncaught == old(uncaught)
    {
      if !ChannelExists(channel) {
        thrown := Write(c, Thrown(JsError("Error", "Invalid channel unsubscription requested: " + ToStr(channel))));
        return;
      }
      calls := calls + [RemoveSocket(channels[ToStr(channel)], c)];
      return None;
    }

    /** `handleIncomingMessage(socket, message)`; `message` is the outcome of `JSON.parse`. */
    method HandleIncomingMessage(c: Client, message: Result<Value, string>) returns (thrown: Option<JsError>)
      modifies this
      ensures var e := MessageEffect(old(channels), old(names), debug, c, message);
              calls == old(calls) + e.calls && sent == old(sent) + e.sent && thrown == e.thrown
      ensures channels == old(channels) && names == old(names) && uncaught == old(uncaught)
    {
      var plan := Plan(message);
      if plan.Err? {
        return Some(plan.error);
      }
      thrown := Perform(c, plan.value);
    }

    /** Carries out the operations of an accepted message. */
    method Perform(c: Client, req: Requests) returns (thrown: Option<JsError>)
      modifies this
      ensures var e := RequestsEffect(old(channels), old(names), debug, c, req);
              calls == old(calls) + e.calls && sent == old(sent) + e.sent && thrown == e.thrown
      ensures channels == old(channels) && names == old(names) && uncaught == old(uncaught)
    {
      ghost var first := Then(StepEffect(channels, debug, c, true, req.subscribe), StepEffect(channels, debug, c, false, req.unsubscribe));
      ghost var list := if req.channels then WriteEffect(c, Text(ChannelsReply(names)), debug) else Nothing;
      assert RequestsEffect(channels, names, debug, c, req) == Then(first, list);
      ghost var calls0, sent0 := calls, sent;
      thrown := PerformSubscriptions(c, req);
      if thrown.Some? {
        return;
      }
      ThenTraces(calls0, sent0, first, list);
      if req.channels {
        thrown := Write(c, Text(Join(Sort(names), " ")));
      }
    }

    /** Subscribes or unsubscribes, when the message asks for it. */
    method PerformStep(c: Client, add: bool, channel: Option<Value>) returns (thrown: Option<JsError>)
      modifies this
      ensures var e := StepEffect(old(channels), debug, c, add, channel);
              calls == old(calls) + e.calls && sent == old(sent) + e.sent && thrown == e.thrown
      ensures channels == old(channels) && names == old(names) && uncaught == old(uncaught)
    {
      thrown := None;
      if channel.Some? {
        if add {
          thrown := Subscribe(channel.value, c);
        } else {
          thrown := Unsubscribe(channel.value, c);
        }
      }
    }

    /** Subscribes, then unsubscribes, as the message asks. */
    method PerformSubscriptions(c: Client, req: Requests) returns (thrown: Option<JsError>)
      modifies this
      ensures var e := Then(StepEffect(old(channels), debug, c, true, req.subscribe),
                            StepEffect(old(channels), debug, c, false, req.unsubscribe));
              calls == old(calls) + e.calls && sent == old(sent) + e.sent && thrown == e.thrown
      ensures channels == old(channels) && names == old(names) && uncaught == old(uncaught)
    {
      ghost var a := StepEffect(channels, debug, c, true, req.subscribe);
      ghost var b := StepEffect(channels, debug, c, false, req.unsubscribe);
      ghost var calls0, sent0 := calls, sent;
      thrown := PerformStep(c, true, req.subscribe);
      if thrown.Some? {
        return;
      }
      ThenTraces(calls0, sent0, a, b);
      thrown := PerformStep(c, false, req.unsubscribe);
    }

    /** The "message" listener. */
    method OnMessage(c: Client, message: Result<Value, string>)
      modifies this
      ensures var e := ReceiveEffect(old(channels), old(names), debug, c, message);
              && calls == old(calls) + e.calls && sent == old(sent) + e.sent
              && uncaught == old(uncaught) + (if e.thrown.Some? then [e.thrown.value] else [])
      ensures channels == old(channels) && names == old(names)
    {
      ghost var m := MessageEffect(channels, names, debug, c, message);
      ThenTraces(calls, sent, Outcome(m.calls, m.sent, None), ReportEffect(c, m.thrown, debug));
      var thrown := HandleIncomingMessage(c, message);
      Report(c, thrown);
    }

    /** The `catch` of the "message" listener: a thrown error is written back, and what
        that write throws escapes. */
    method Report(c: Client, thrown: Option<JsError>)
      modifies this
      ensures var w := ReportEffect(c, thrown, debug);
              && calls == old(calls) && sent == old(sent) + w.sent
              && uncaught == old(uncaught) + (if w.thrown.Some? then [w.thrown.value] else [])
      ensures channels == old(channels) && names == old(names)
    {
      if thrown.Some? {
        var escaped := Write(c, Thrown(thrown.value));
        if escaped.Some? {
          uncaught := uncaught + [escaped.value];
        }
      }
    }

    /** `unsubscribeAll(socket)`: every proxy, in key order, by its own name. */
    method UnsubscribeAll(c: Client)
      requires Valid()
      modifies this
      ensures Valid()
      ensures calls == old(calls) + CloseCalls(channels, names, c)
      ensures channels == old(channels) && names == old(names)
      ensures sent == old(sent) && uncaught == old(uncaught)
    {
      for i := 0 to |names|
        invariant Valid()
        invariant channels == old(channels) && names == old(names)
        invariant calls == old(calls) + CloseCalls(channels, names[..i], c)
        invariant sent == old(sent) && uncaught == old(uncaught)
      {
        var proxy := channels[names[i]];
        RemoveKnown(channels, debug, c, proxy.name);
        var thrown := Unsubscribe(Str(proxy.name), c);
        assert CloseCalls(channels, names[..i + 1], c) == CloseCalls(channels, names[..i], c) + [RemoveSocket(proxy, c)];
      }
      assert names[..|names|] == names;
    }

    /** The connection handler. The greeting is emitted before the "write" listener is
        attached, so no client receives it. */
    method OnConnection(c: Client)
      modifies c
      ensures c.receivedHeartbeat && c.terminated == old(c.terminated) && c.pings == old(c.pings)
    {
      c.receivedHeartbeat := true;
    }

    /** The "close" listener. */
    method OnClose(c: Client)
      requires Valid()
      modifies this
      ensures Valid()
      ensures calls == old(calls) + CloseCalls(channels, names, c)
      ensures channels == old(channels) && names == old(names)
      ensures sent == old(sent) && uncaught == old(uncaught)
    {
      UnsubscribeAll(c);
    }

    /** The "pong" listener. */
    method OnPong(c: Client)
      modifies c
      ensures c.receivedHeartbeat && c.terminated == old(c.terminated) && c.pings == old(c.pings)
    {
      c.receivedHeartbeat := true;
    }

    /** `checkHeartbeat(socket)`: a client that did not answer the last ping is
        terminated; any other is pinged again and must answer before the next check. */
    method CheckHeartbeat(c: Client)
      modifies c
      ensures !old(c.receivedHeartbeat) ==>
                c.terminated && c.receivedHeartbeat == old(c.receivedHeartbeat) && c.pings == old(c.pings)
      ensures old(c.receivedHeartbeat) ==>
                !c.receivedHeartbeat && c.pings == old(c.pings) + 1 && c.terminated == old(c.terminated)
    {
      if !c.receivedHeartbeat {
        c.terminated := true;
        return;
      }
      c.receivedHeartbeat := false;
      c.pings := c.pings + 1;
    }
  }
}
