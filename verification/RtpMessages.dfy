/** What the receive loop delivers, in terms of the messages a camera meant to send:
    interleaved frames as in section 10.12 of RFC 2326, RTP packets as in sections 5.1
    and 5.3.1 of RFC 3550. */
module RtpMessages {
  import opened RtspStream

  // ---------- the sender's side ----------

  datatype Extension = NoExtension | Extension(profile: seq<Byte>, words: seq<Byte>)

  /** `fixed` holds the sequence number, the timestamp and the SSRC. */
  datatype RtpPacket = RtpPacket(payloadType: nat, marker: bool, fixed: seq<Byte>, csrcs: seq<Byte>,
                                 extension: Extension, payload: seq<Byte>, padding: seq<Byte>)

  /** What is on the connection: stray text without the sync byte, a frame of another
      channel, or an RTP packet of the metadata channel. */
  datatype Item = Text(text: seq<Byte>) | Other(channel: Byte, body: seq<Byte>) | Rtp(packet: RtpPacket)

  ghost predicate WellFormedPacket(p: RtpPacket) {
    && p.payloadType < 128 && |p.fixed| == 10
    && |p.csrcs| % 4 == 0 && |p.csrcs| < 64
    && (p.extension.Extension? ==>
          |p.extension.profile| == 2 && |p.extension.words| % 4 == 0 && |p.extension.words| / 4 <= MAX_RTP_PAYLOAD)
    && |HeaderWire(p)| + |p.payload| + |p.padding| <= MAX_RTP_PAYLOAD
  }

  ghost predicate WellFormed(item: Item, channel: Byte) {
    match item
    case Text(text) => DOLLAR !in text
    case Other(other, body) => other != channel && |body| <= MAX_RTP_PAYLOAD
    case Rtp(p) => WellFormedPacket(p)
  }

  ghost function FirstByte(p: RtpPacket): Byte
    requires |p.csrcs| % 4 == 0 && |p.csrcs| < 64
  {
    128 + (if p.padding != [] then 32 else 0) + (if p.extension.Extension? then 16 else 0) + |p.csrcs| / 4
  }

  ghost function ExtensionWire(e: Extension): seq<Byte>
    requires e.Extension? ==> |e.words| / 4 <= MAX_RTP_PAYLOAD
  {
    match e
    case NoExtension => []
    case Extension(profile, words) => profile + Length16(|words| / 4) + words
  }

  ghost function Length16(n: nat): (w: seq<Byte>)
    requires n <= MAX_RTP_PAYLOAD
    ensures |w| == 2 && BigEndian16(w[0], w[1]) == n
  {
    [n / 256, n % 256]
  }

  ghost function HeaderWire(p: RtpPacket): (w: seq<Byte>)
    requires p.payloadType < 128 && |p.csrcs| % 4 == 0 && |p.csrcs| < 64
    requires p.extension.Extension? ==> |p.extension.words| / 4 <= MAX_RTP_PAYLOAD
  {
    [FirstByte(p), (if p.marker then 128 else 0) + p.payloadType] + p.fixed + p.csrcs + ExtensionWire(p.extension)
  }

  ghost function PacketWire(p: RtpPacket): seq<Byte>
    requires WellFormedPacket(p)
  {
    HeaderWire(p) + (p.payload + p.padding)
  }

  ghost function FrameWire(channel: Byte, body: seq<Byte>): seq<Byte>
    requires |body| <= MAX_RTP_PAYLOAD
  {
    [DOLLAR] + ([channel] + Length16(|body|) + body)
  }

  ghost function ItemWire(item: Item, channel: Byte): seq<Byte>
    requires WellFormed(item, channel)
  {
    match item
    case Text(text) => text
    case Other(other, body) => FrameWire(other, body)
    case Rtp(p) => FrameWire(channel, PacketWire(p))
  }

  ghost function Wire(items: seq<Item>, channel: Byte): seq<Byte>
    requires forall i :: 0 <= i < |items| ==> WellFormed(items[i], channel)
  {
    if items == [] then [] else ItemWire(items[0], channel) + Wire(items[1..], channel)
  }

  // ---------- the messages the sender meant ----------

  /** Messages end at marker packets; a message that would exceed the cap ends the session. */
  ghost function Messages(items: seq<Item>, unfinished: seq<Byte>, cap: nat): seq<seq<Byte>>
  {
    if items == [] then []
    else if !items[0].Rtp? then Messages(items[1..], unfinished, cap)
    else
      match Intended(items[0].packet, unfinished, cap)
      case Overflow => []
      case Accumulated(rest, out) => out + Messages(items[1..], rest, cap)
  }

  /** The meaning of one packet: its payload without the padding belongs to the message,
      and the marker ends the message unless nothing was sent for it. */
  ghost function Intended(p: RtpPacket, unfinished: seq<Byte>, cap: nat): Effect {
    if unfinished + p.payload == [] then Accumulated([], [])
    else Append(p.payload, p.marker, unfinished, cap)
  }

  // ---------- one packet ----------

  lemma FirstByteFields(p: RtpPacket)
    requires WellFormedPacket(p)
    ensures FirstByte(p) / 64 == 2 && 4 * (FirstByte(p) % 16) == |p.csrcs|
    ensures FirstByte(p) / 16 % 2 == 1 <==> p.extension.Extension?
  {
    var count := |p.csrcs| / 4;
    assert 0 <= count < 16 && 4 * count == |p.csrcs|;
  }

  lemma HeaderIndices(p: RtpPacket)
    requires WellFormedPacket(p)
    ensures PacketWire(p)[0] == FirstByte(p)
    ensures PacketWire(p)[1] == (if p.marker then 128 else 0) + p.payloadType
    ensures p.extension.Extension? ==>
              var at := 12 + |p.csrcs|;
              |PacketWire(p)| >= at + 4
              && BigEndian16(PacketWire(p)[at + 2], PacketWire(p)[at + 3]) == |p.extension.words| / 4
  {
    if p.extension.Extension? {
      var front := [FirstByte(p), (if p.marker then 128 else 0) + p.payloadType] + p.fixed + p.csrcs;
      var at := 12 + |p.csrcs|;
      assert |front| == at;
      assert PacketWire(p)[at + 2] == Length16(|p.extension.words| / 4)[0];
      assert PacketWire(p)[at + 3] == Length16(|p.extension.words| / 4)[1];
    }
  }

  /** The header parser finds exactly the header the sender wrote, whatever the number of
      contributing sources and the size of the extension. */
  lemma HeaderLengthIsExact(p: RtpPacket)
    requires WellFormedPacket(p)
    ensures RtpHeaderLength(PacketWire(p)) == |HeaderWire(p)|
    ensures PacketWire(p)[|HeaderWire(p)|..] == p.payload + p.padding
  {
    var wire, body, at := PacketWire(p), p.payload + p.padding, 12 + |p.csrcs|;
    HeaderIndices(p);
    FirstByteFields(p);
    assert |HeaderWire(p)| == at + |ExtensionWire(p.extension)|;
    assert wire[0] / 16 % 2 == 1 <==> p.extension.Extension?;
    assert 12 + 4 * (wire[0] % 16) == at;
  }

  /** When the client's reading of a packet is the sender's meaning: exactly when the
      packet is unpadded and is not an empty marker packet closing a pending message, or
      both overflow the cap. */
  lemma PacketMeaning(p: RtpPacket, unfinished: seq<Byte>, cap: nat)
    requires WellFormedPacket(p) && |unfinished| <= cap
    ensures PacketEffect(PacketWire(p), unfinished, cap) == Intended(p, unfinished, cap)
       <==> (p.padding == [] && (p.payload == [] && p.marker ==> unfinished == []))
            || |unfinished| + |p.payload| > cap
  {
    HeaderLengthIsExact(p);
    HeaderIndices(p);
    var wire, body := PacketWire(p), p.payload + p.padding;
    assert (wire[1] >= 128) == p.marker;
    if body != [] {
      assert PacketEffect(wire, unfinished, cap) == Append(body, p.marker, unfinished, cap);
      assert |unfinished + body| == |unfinished| + |p.payload| + |p.padding|;
      assert p.padding == [] ==> body == p.payload;
    }
  }

  // ---------- whole streams ----------

  lemma {:induction false} TextIsSkipped(text: seq<Byte>, rest: seq<Byte>, buffer: seq<Byte>, channel: int, cap: nat)
    requires DOLLAR !in text
    ensures Deliver(text + rest, buffer, channel, cap) == Deliver(rest, buffer, channel, cap)
  {
    if text == [] {
      assert text + rest == rest;
    } else {
      assert (text + rest)[1..] == text[1..] + rest;
      TextIsSkipped(text[1..], rest, buffer, channel, cap);
    }
  }

  lemma FrameIsRead(other: Byte, body: seq<Byte>, rest: seq<Byte>, buffer: seq<Byte>, channel: int, cap: nat)
    requires |body| <= MAX_RTP_PAYLOAD
    ensures OnePass(FrameWire(other, body) + rest, buffer, channel, cap)
         == if other != channel then Next(rest, buffer, [])
            else match PacketEffect(body, buffer, cap)
                 case Overflow => Stop
                 case Accumulated(grown, out) => Next(rest, grown, out)
  {
    var stream := FrameWire(other, body) + rest;
    var tail := [other] + Length16(|body|) + body + rest;
    assert stream == [DOLLAR] + tail;
    var end := 3 + |body|;
    assert tail[3..end] == body && tail[end..] == rest;
  }

  /** The packet at the front of `items` is read as it was meant. */
  ghost predicate Plain(item: Item) {
    item.Rtp? ==> item.packet.padding == [] && (item.packet.payload == [] ==> !item.packet.marker)
  }

  /** For every stream of sync-free text, frames of other channels and unpadded RTP packets
      (of which only non-marker ones may be empty), the client delivers exactly the
      sender's messages, up to the first one over the cap. */
  lemma {:induction false} DeliversTheMessages(items: seq<Item>, unfinished: seq<Byte>, channel: Byte, cap: nat)
    requires forall i :: 0 <= i < |items| ==> WellFormed(items[i], channel) && Plain(items[i])
    requires |unfinished| <= cap
    ensures Deliver(Wire(items, channel), unfinished, channel, cap) == Messages(items, unfinished, cap)
    decreases |items|
  {
    if items != [] {
      var item, rest := items[0], Wire(items[1..], channel);
      match item
      case Text(text) =>
        TextIsSkipped(text, rest, unfinished, channel, cap);
        DeliversTheMessages(items[1..], unfinished, channel, cap);
      case Other(other, body) =>
        FrameIsRead(other, body, rest, unfinished, channel, cap);
        DeliversTheMessages(items[1..], unfinished, channel, cap);
      case Rtp(p) =>
        FrameIsRead(channel, PacketWire(p), rest, unfinished, channel, cap);
        PacketMeaning(p, unfinished, cap);
        match Intended(p, unfinished, cap)
        case Overflow =>
        case Accumulated(grown, out) => DeliversTheMessages(items[1..], grown, channel, cap);
    }
  }

  /** Cutting the connection anywhere only loses messages from the end: what has been
      delivered by then is a prefix of what the whole stream delivers. */
  lemma {:induction false} CutStreamDeliversPrefix(s: seq<Byte>, k: nat, buffer: seq<Byte>, channel: int, cap: nat)
    requires k <= |s|
    ensures Deliver(s[..k], buffer, channel, cap) <= Deliver(s, buffer, channel, cap)
    decreases |s|
  {
    var pass := OnePass(s[..k], buffer, channel, cap);
    if pass.Next? {
      var used := CutPass(s, k, buffer, channel, cap);
      CutStreamDeliversPrefix(s[used..], k - used, pass.buffer, channel, cap);
      DeliverNext(s[..k], buffer, channel, cap, pass.rest, pass.buffer, pass.out);
      DeliverNext(s, buffer, channel, cap, s[used..], pass.buffer, pass.out);
      PrefixAfter(pass.out, Deliver(pass.rest, pass.buffer, channel, cap),
                  Deliver(s[used..], pass.buffer, channel, cap));
    }
  }

  lemma CutPass(s: seq<Byte>, k: nat, buffer: seq<Byte>, channel: int, cap: nat) returns (used: nat)
    requires k <= |s| && OnePass(s[..k], buffer, channel, cap).Next?
    ensures var p := OnePass(s[..k], buffer, channel, cap);
            && 0 < used <= k && s[used..][..k - used] == p.rest
            && OnePass(s, buffer, channel, cap) == Next(s[used..], p.buffer, p.out)
  {
    var p := OnePass(s[..k], buffer, channel, cap);
    used := k - |p.rest|;
    PassOnPrefix(s, k, buffer, channel, cap);
    assert s[used..][..k - used] == s[..k][used..];
  }

  lemma DeliverNext(s: seq<Byte>, buffer: seq<Byte>, channel: int, cap: nat, rest: seq<Byte>, grown: seq<Byte>,
                    out: seq<seq<Byte>>)
    requires OnePass(s, buffer, channel, cap) == Next(rest, grown, out)
    ensures Deliver(s, buffer, channel, cap) == out + Deliver(rest, grown, channel, cap)
  {}

  lemma PrefixAfter(out: seq<seq<Byte>>, some: seq<seq<Byte>>, all: seq<seq<Byte>>)
    requires some <= all
    ensures out + some <= out + all
  {}

  lemma SliceOfPrefix(s: seq<Byte>, n: nat, from: nat, to: nat)
    requires from <= to <= n <= |s|
    ensures s[..n][from..to] == s[from..to] && s[..n][to..] == s[to..n]
  {}

  lemma PassOnPrefix(s: seq<Byte>, k: nat, buffer: seq<Byte>, channel: int, cap: nat)
    requires k <= |s| && OnePass(s[..k], buffer, channel, cap).Next?
    ensures var p := OnePass(s[..k], buffer, channel, cap);
            var used := k - |p.rest|;
            && used >= 0 && p.rest == s[..k][used..]
            && OnePass(s, buffer, channel, cap) == Next(s[used..], p.buffer, p.out)
  {
    if s[0] == DOLLAR {
      assert s[..k][1..] == s[1..][..k - 1];
      FrameOnPrefix(s[1..], k - 1, buffer, channel, cap);
      var used := k - |OnePass(s[..k], buffer, channel, cap).rest|;
      assert s[1..][used - 1..] == s[used..];
      assert s[1..][..k - 1][used - 1..] == s[..k][used..];
    }
  }

  lemma FrameOnPrefix(s: seq<Byte>, k: nat, buffer: seq<Byte>, channel: int, cap: nat)
    requires k <= |s| && AfterDollar(s[..k], buffer, channel, cap).Next?
    ensures var p := AfterDollar(s[..k], buffer, channel, cap);
            var used := k - |p.rest|;
            && used >= 0 && p.rest == s[..k][used..]
            && AfterDollar(s, buffer, channel, cap) == Next(s[used..], p.buffer, p.out)
  {
    var end := 3 + BigEndian16(s[..k][1], s[..k][2]);
    SliceOfPrefix(s, k, 3, end);
  }

  /** A whole session: the payloads are a function of the concatenated bytes alone. */
  method ReceiveAll(readBufBytes: nat, network: seq<seq<Byte>>, channel: int, cap: nat) returns (out: seq<seq<Byte>>)
    requires forall i :: 0 <= i < |network| ==> 0 < |network[i]| <= readBufBytes
    ensures out == Deliver(Flatten(network), [], channel, cap)
  {
    var socket := new SocketReader(readBufBytes, network);
    var client := new RtspClient(socket, channel, cap);
    client.Run(TotalLength(network) + 1);
    out := client.received;
  }

  /** Two connections that carry the same bytes, split differently by the network, deliver the same. */
  method DeliveryIgnoresChunking(readBufBytes: nat, first: seq<seq<Byte>>, second: seq<seq<Byte>>,
                                 channel: int, cap: nat)
    returns (one: seq<seq<Byte>>, two: seq<seq<Byte>>)
    requires forall i :: 0 <= i < |first| ==> 0 < |first[i]| <= readBufBytes
    requires forall i :: 0 <= i < |second| ==> 0 < |second[i]| <= readBufBytes
    requires Flatten(first) == Flatten(second)
    ensures one == two
  {
    one := ReceiveAll(readBufBytes, first, channel, cap);
    two := ReceiveAll(readBufBytes, second, channel, cap);
  }

  function TotalLength(chunks: seq<seq<Byte>>): (n: nat)
    ensures n == |Flatten(chunks)|
  {
    if chunks == [] then 0 else |chunks[0]| + TotalLength(chunks[1..])
  }

  // ---------- where the client departs from the sender's meaning ----------

  lemma OnePacketDelivered(p: RtpPacket, cap: nat)
    requires WellFormedPacket(p) && p.marker && p.payload != [] && |p.payload + p.padding| <= cap
    ensures Deliver(Wire([Rtp(p)], 0), [], 0, cap) == [p.payload + p.padding]
  {
    HeaderLengthIsExact(p);
    HeaderIndices(p);
    FrameIsRead(0, PacketWire(p), [], [], 0, cap);
    assert Wire([Rtp(p)], 0) == FrameWire(0, PacketWire(p)) + [];
    var body := p.payload + p.padding;
    assert [] + body == body;
    assert PacketEffect(PacketWire(p), [], cap) == Accumulated([], [body]);
    assert Deliver([], [], 0, cap) == [];
  }

  lemma OnePacketMeant(p: RtpPacket, cap: nat)
    requires p.marker && p.payload != [] && |p.payload| <= cap
    ensures Messages([Rtp(p)], [], cap) == [p.payload]
  {
    assert [] + p.payload == p.payload;
    assert Messages([], [], cap) == [];
  }

  /** RTP padding is delivered as part of the message: a single complete packet comes out
      as it was meant exactly when it is unpadded. */
  lemma PaddingIsDelivered(p: RtpPacket, cap: nat)
    requires WellFormedPacket(p) && p.marker && p.payload != [] && |p.payload + p.padding| <= cap
    ensures Deliver(Wire([Rtp(p)], 0), [], 0, cap) == [p.payload + p.padding]
    ensures Deliver(Wire([Rtp(p)], 0), [], 0, cap) == Messages([Rtp(p)], [], cap) <==> p.padding == []
  {
    OnePacketDelivered(p, cap);
    OnePacketMeant(p, cap);
    assert p.padding == [] ==> p.payload + p.padding == p.payload;
    assert |p.payload + p.padding| == |p.payload| + |p.padding|;
    assert [p.payload + p.padding][0] == p.payload + p.padding && [p.payload][0] == p.payload;
  }

  lemma PaddedExample()
    ensures var p := RtpPacket(98, true, seq(10, _ => 0), [], NoExtension, [60], [0, 0, 3]);
            WellFormedPacket(p) && Deliver(Wire([Rtp(p)], 0), [], 0, 100) == [[60] + [0, 0, 3]]
  {
    var p := RtpPacket(98, true, seq(10, _ => 0), [], NoExtension, [60], [0, 0, 3]);
    assert |ExtensionWire(p.extension)| == 0;
    PaddingIsDelivered(p, 100);
  }

  lemma PacketIsRead(p: RtpPacket, items: seq<Item>, buffer: seq<Byte>, cap: nat)
    requires WellFormedPacket(p) && forall i :: 0 <= i < |items| ==> WellFormed(items[i], 0)
    ensures Deliver(Wire([Rtp(p)] + items, 0), buffer, 0, cap)
         == match PacketEffect(PacketWire(p), buffer, cap)
            case Overflow => []
            case Accumulated(grown, out) => out + Deliver(Wire(items, 0), grown, 0, cap)
  {
    assert ([Rtp(p)] + items)[1..] == items;
    FrameIsRead(0, PacketWire(p), Wire(items, 0), buffer, 0, cap);
  }

  /** Unpadded packets, and what the client and the sender make of them. */
  lemma PacketRead(p: RtpPacket, unfinished: seq<Byte>, cap: nat)
    requires WellFormedPacket(p) && p.padding == [] && |unfinished + p.payload| <= cap
    ensures PacketEffect(PacketWire(p), unfinished, cap)
         == if p.payload == [] then Accumulated(unfinished, []) else Append(p.payload, p.marker, unfinished, cap)
  {
    HeaderLengthIsExact(p);
    HeaderIndices(p);
    assert p.payload + p.padding == p.payload;
    assert (PacketWire(p)[1] >= 128) == p.marker;
  }

  lemma LastRead(q: RtpPacket, unfinished: seq<Byte>, cap: nat)
    requires WellFormedPacket(q) && q.padding == [] && q.payload != [] && q.marker && |unfinished + q.payload| <= cap
    ensures Deliver(Wire([Rtp(q)], 0), unfinished, 0, cap) == [unfinished + q.payload]
  {
    assert [Rtp(q)] == [Rtp(q)] + [];
    PacketIsRead(q, [], unfinished, cap);
    PacketRead(q, unfinished, cap);
    assert Deliver([], [], 0, cap) == [];
  }

  lemma OneMoreMeant(p: RtpPacket, items: seq<Item>, unfinished: seq<Byte>, cap: nat, grown: seq<Byte>,
                     out: seq<seq<Byte>>)
    requires Intended(p, unfinished, cap) == Accumulated(grown, out)
    ensures Messages([Rtp(p)] + items, unfinished, cap) == out + Messages(items, grown, cap)
  {
    assert ([Rtp(p)] + items)[1..] == items;
  }

  /** An empty packet whose marker ends a message does not end it: that message and the next one come
      out as one. */
  lemma EmptyMarkerMerges(p: RtpPacket, end: RtpPacket, q: RtpPacket, cap: nat)
    requires WellFormedPacket(p) && WellFormedPacket(end) && WellFormedPacket(q)
    requires p.padding == [] && end.padding == [] && q.padding == [] && |p.payload + q.payload| <= cap
    requires p.payload != [] && !p.marker && end.payload == [] && end.marker && q.payload != [] && q.marker
    ensures Messages([Rtp(p)] + ([Rtp(end)] + [Rtp(q)]), [], cap) == [p.payload] + [q.payload]
    ensures Deliver(Wire([Rtp(p)] + ([Rtp(end)] + [Rtp(q)]), 0), [], 0, cap) == [p.payload + q.payload]
  {
    assert [] + p.payload == p.payload && p.payload + end.payload == p.payload;
    OneMoreMeant(p, [Rtp(end)] + [Rtp(q)], [], cap, p.payload, []);
    OneMoreMeant(end, [Rtp(q)], p.payload, cap, [], [p.payload]);
    OnePacketMeant(q, cap);
    PacketIsRead(p, [Rtp(end)] + [Rtp(q)], [], cap);
    PacketRead(p, [], cap);
    PacketIsRead(end, [Rtp(q)], p.payload, cap);
    PacketRead(end, p.payload, cap);
    LastRead(q, p.payload, cap);
  }
}
