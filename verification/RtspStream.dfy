/** Interleaved RTP over an RTSP connection: a buffered byte reader underneath a
    resynchronising frame parser (compute-server RtspClientV2).

    Bytes are the integers 0..255, so the bit tests of the source are written with
    `/` and `%`, which agree with `>>` and `&` on that range. */
module RtspStream {

  type Byte = b: int | 0 <= b < 256

  const DOLLAR: Byte := 36
  const MAX_RTP_PAYLOAD: nat := 65535
  const RTP_HEADER_SIZE: nat := 12

  function BigEndian16(high: Byte, low: Byte): (n: nat)
    ensures n <= MAX_RTP_PAYLOAD
  {
    (high as int) * 256 + low as int
  }

  // ---------- what one pass of the loop does to the byte stream ----------

  /** Length of the RTP header at the front of `packet`, 0 when it is not an RTP packet. */
  function RtpHeaderLength(packet: seq<Byte>): (n: nat)
    ensures n == 0 || RTP_HEADER_SIZE <= n <= |packet|
  {
    if |packet| < RTP_HEADER_SIZE then 0
    else if packet[0] / 64 != 2 then 0
    else
      var fixed := RTP_HEADER_SIZE + 4 * (packet[0] % 16);
      if |packet| < fixed then 0
      else if packet[0] / 16 % 2 == 0 then fixed
      else if |packet| < fixed + 4 then 0
      else
        var extended := fixed + 4 + 4 * BigEndian16(packet[fixed + 2], packet[fixed + 3]);
        if |packet| < extended then 0 else extended
  }

  /** What is left after a complete interleaved frame has been read: the loop either
      gives up, or goes on with a new accumulation buffer and at most one delivery. */
  datatype Effect = Overflow | Accumulated(buffer: seq<Byte>, out: seq<seq<Byte>>)

  function PacketEffect(packet: seq<Byte>, buffer: seq<Byte>, cap: nat): Effect {
    var header := RtpHeaderLength(packet);
    if header == 0 || |packet| <= header then Accumulated(buffer, [])
    else Append(packet[header..], packet[1] >= 128, buffer, cap)
  }

  function Append(payload: seq<Byte>, marker: bool, buffer: seq<Byte>, cap: nat): Effect {
    var grown := buffer + payload;
    if |grown| > cap then Overflow
    else if marker then Accumulated([], [grown])
    else Accumulated(grown, [])
  }

  /** One pass of the receive loop over the unread bytes. */
  datatype Pass = Stop | Next(rest: seq<Byte>, buffer: seq<Byte>, out: seq<seq<Byte>>)

  function OnePass(stream: seq<Byte>, buffer: seq<Byte>, channel: int, cap: nat): (p: Pass)
    ensures p.Next? ==> |p.rest| < |stream|
    ensures p.Next? ==> forall m :: m in p.out ==> |m| <= cap
  {
    if stream == [] then Stop
    else if stream[0] != DOLLAR then Next(stream[1..], buffer, [])
    else AfterDollar(stream[1..], buffer, channel, cap)
  }

  function AfterDollar(stream: seq<Byte>, buffer: seq<Byte>, channel: int, cap: nat): (p: Pass)
    ensures p.Next? ==> |p.rest| < |stream|
    ensures p.Next? ==> forall m :: m in p.out ==> |m| <= cap
  {
    if |stream| < 3 then Stop
    else
      var end := 3 + BigEndian16(stream[1], stream[2]);
      if |stream| < end then Stop
      else if stream[0] != channel then Next(stream[end..], buffer, [])
      else
        match PacketEffect(stream[3..end], buffer, cap)
        case Overflow => Stop
        case Accumulated(grown, out) => Next(stream[end..], grown, out)
  }

  /** The payloads delivered from `stream`, given the bytes of the unfinished message. */
  function Deliver(stream: seq<Byte>, buffer: seq<Byte>, channel: int, cap: nat): (out: seq<seq<Byte>>)
    ensures forall m :: m in out ==> |m| <= cap
    decreases |stream|
  {
    match OnePass(stream, buffer, channel, cap)
    case Stop => []
    case Next(rest, grown, out) => out + Deliver(rest, grown, channel, cap)
  }

  function Flatten(chunks: seq<seq<Byte>>): seq<Byte> {
    if chunks == [] then [] else chunks[0] + Flatten(chunks[1..])
  }

  // ---------- the buffered reader ----------

  lemma DropTwice(s: seq<Byte>, m: nat, n: nat)
    requires m <= |s|
    ensures m + n <= |s| ==> s[m..][n..] == s[m + n..]
    ensures forall i :: m <= i < m + n && m + n <= |s| ==> s[m..][i - m] == s[i]
  {}

  class SocketReader {
    const sockBuf: array<Byte>
    var sockBufLen: nat
    var sockBufPos: nat
    /** What the coming calls of `recv` return; when it is used up, `recv` fails. */
    var pending: seq<seq<Byte>>
    /** The bytes of the connection that have not been consumed yet. */
    ghost var stream: seq<Byte>

    ghost predicate Valid()
      reads this, sockBuf
    {
      && sockBufPos <= sockBufLen <= sockBuf.Length
      && stream == sockBuf[sockBufPos..sockBufLen] + Flatten(pending)
      && forall i :: 0 <= i < |pending| ==> 0 < |pending[i]| <= sockBuf.Length
    }

    constructor (readBufBytes: nat, network: seq<seq<Byte>>)
      requires forall i :: 0 <= i < |network| ==> 0 < |network[i]| <= readBufBytes
      ensures Valid() && fresh(sockBuf) && stream == Flatten(network)
    {
      sockBuf := new Byte[readBufBytes](_ => 0);
      sockBufLen, sockBufPos := 0, 0;
      pending, stream := network, Flatten(network);
    }

    /** One `recv` into the fixed buffer, whose old contents are overwritten. */
    method FillReadBuffer() returns (ok: bool)
      requires Valid() && sockBufPos == sockBufLen
      modifies this, sockBuf
      ensures Valid() && stream == old(stream)
      ensures ok == (stream != [])
      ensures ok ==> sockBufPos < sockBufLen
    {
      sockBufPos := 0;
      if pending == [] {
        sockBufLen := 0;
        return false;
      }
      var chunk := pending[0];
      forall i | 0 <= i < |chunk| {
        sockBuf[i] := chunk[i];
      }
      sockBufLen := |chunk|;
      pending := pending[1..];
      assert sockBuf[0..sockBufLen] == chunk;
      assert old(sockBuf[sockBufPos..sockBufLen]) == [];
      assert stream == chunk + Flatten(pending);
      return true;
    }

    method ReadByte() returns (ok: bool, out: Byte)
      requires Valid()
      modifies this, sockBuf
      ensures Valid()
      ensures ok == (old(stream) != [])
      ensures ok ==> out == old(stream)[0] && stream == old(stream)[1..]
    {
      out := 0;
      if sockBufPos >= sockBufLen {
        ok := FillReadBuffer();
        if !ok { return; }
      }
      out := sockBuf[sockBufPos];
      sockBufPos := sockBufPos + 1;
      stream := stream[1..];
      return true, out;
    }

    /** The `memcpy` step: moves `take` buffered bytes to `dest[at..]`. */
    method CopyOut(dest: array<Byte>, at: nat, take: nat)
      requires Valid() && dest != sockBuf
      requires take <= sockBufLen - sockBufPos && at + take <= dest.Length
      modifies this, dest
      ensures Valid() && sockBufPos == old(sockBufPos) + take && sockBufLen == old(sockBufLen)
      ensures take <= |old(stream)| && stream == old(stream)[take..]
      ensures forall i :: 0 <= i < take ==> dest[at + i] == old(stream)[i]
      ensures forall i :: 0 <= i < dest.Length && !(at <= i < at + take) ==> dest[i] == old(dest[i])
    {
      ghost var held, rest := sockBuf[sockBufPos..sockBufLen], Flatten(pending);
      forall i | 0 <= i < take {
        dest[at + i] := sockBuf[sockBufPos + i];
      }
      assert sockBuf[sockBufPos..sockBufLen] == held;
      assert stream[take..] == held[take..] + rest;
      sockBufPos := sockBufPos + take;
      assert sockBuf[sockBufPos..sockBufLen] == held[take..];
      stream := stream[take..];
    }

    /** One turn of the loop in `ReadBytes`: refills an empty buffer, then copies what it holds,
        at most `wanted` bytes. Nothing is copied only at the end of the stream. */
    method CopySome(dest: array<Byte>, at: nat, wanted: nat) returns (take: nat)
      requires Valid() && dest != sockBuf && wanted > 0 && at + wanted <= dest.Length
      modifies this, sockBuf, dest
      ensures Valid() && (take == 0 <==> old(stream) == [])
      ensures take <= wanted && take <= |old(stream)| && stream == old(stream)[take..]
      ensures forall i :: 0 <= i < take ==> dest[at + i] == old(stream)[i]
      ensures forall i :: 0 <= i < dest.Length && !(at <= i < at + take) ==> dest[i] == old(dest[i])
    {
      if sockBufPos >= sockBufLen {
        var more := FillReadBuffer();
        if !more { return 0; }
      }
      var avail := sockBufLen - sockBufPos;
      take := if avail < wanted then avail else wanted;
      CopyOut(dest, at, take);
    }

    /** Reads exactly `len` bytes, however the network split them; bytes of `dest`
        beyond `len` keep their old contents. */
    method ReadBytes(dest: array<Byte>, len: nat) returns (ok: bool)
      requires Valid() && len <= dest.Length && dest != sockBuf
      modifies this, sockBuf, dest
      ensures Valid()
      ensures ok == (|old(stream)| >= len)
      ensures ok ==> stream == old(stream)[len..] && forall i :: 0 <= i < len ==> dest[i] == old(stream)[i]
      ensures forall i :: len <= i < dest.Length ==> dest[i] == old(dest[i])
    {
      var copied := 0;
      ghost var s0 := stream;
      while copied < len
        invariant copied <= len && copied <= |s0| && Valid()
        invariant stream == s0[copied..]
        invariant forall i :: 0 <= i < copied ==> dest[i] == s0[i]
        invariant forall i :: len <= i < dest.Length ==> dest[i] == old(dest[i])
        decreases len - copied
      {
        var take := CopySome(dest, copied, len - copied);
        if take == 0 { return false; }
        DropTwice(s0, copied, take);
        copied := copied + take;
      }
      return true;
    }
  }

  // ---------- the client ----------

  class RtspClient {
    const socket: SocketReader
    const rtpPacket: array<Byte>
    const rtpChannel: int
    const maxMetadataFrameSize: nat
    /** Everything handed to the payload callback. */
    var received: seq<seq<Byte>>

    ghost predicate Valid()
      reads this, socket, socket.sockBuf
    {
      socket.Valid() && rtpPacket != socket.sockBuf && rtpPacket.Length == MAX_RTP_PAYLOAD
    }

    constructor (reader: SocketReader, channel: int, maxFrame: nat)
      requires reader.Valid()
      ensures Valid() && socket == reader && fresh(rtpPacket) && received == []
      ensures rtpChannel == channel && maxMetadataFrameSize == maxFrame
    {
      socket := reader;
      rtpPacket := new Byte[MAX_RTP_PAYLOAD](_ => 0);
      rtpChannel, maxMetadataFrameSize, received := channel, maxFrame, [];
    }

    /** Reads the `$`-introduced frame that the sync byte announced. */
    method ReadInterleaved() returns (ok: bool, channel: int, len: nat)
      requires Valid()
      modifies socket, socket.sockBuf, rtpPacket
      ensures Valid()
      ensures ok == (|old(socket.stream)| >= 3
                     && |old(socket.stream)| >= 3 + BigEndian16(old(socket.stream)[1], old(socket.stream)[2]))
      ensures ok ==>
                && channel == old(socket.stream)[0]
                && len == BigEndian16(old(socket.stream)[1], old(socket.stream)[2])
                && socket.stream == old(socket.stream)[3 + len..]
                && rtpPacket[..len] == old(socket.stream)[3..3 + len]
    {
      channel, len := 0, 0;
      var header := new Byte[3](_ => 0);
      ghost var s0 := socket.stream;
      ok := socket.ReadBytes(header, 3);
      if !ok { return; }
      channel := header[0];
      len := BigEndian16(header[1], header[2]);
      if len > MAX_RTP_PAYLOAD { return false, channel, len; }
      ok := socket.ReadBytes(rtpPacket, len);
    }

    /** The second half of the loop body: a packet of the metadata channel is in
        `rtpPacket[..payloadLen]`. `go` is false when the loop is left by a break. */
    method HandlePacket(payloadLen: nat, buffer: seq<Byte>) returns (go: bool, metadataBuffer: seq<Byte>)
      requires Valid() && payloadLen <= rtpPacket.Length
      modifies this`received
      ensures match PacketEffect(rtpPacket[..payloadLen], buffer, maxMetadataFrameSize)
              case Overflow => !go && received == old(received)
              case Accumulated(grown, out) => go && metadataBuffer == grown && received == old(received) + out
    {
      var packet := rtpPacket[..payloadLen];
      var rtpHeaderLen := RtpHeaderLength(packet);
      if rtpHeaderLen == 0 || payloadLen <= rtpHeaderLen { return true, buffer; }

      var marker := packet[1] >= 128;
      metadataBuffer := buffer + packet[rtpHeaderLen..];
      if |metadataBuffer| > maxMetadataFrameSize { return false, metadataBuffer; }
      if marker {
        received := received + [metadataBuffer];
        metadataBuffer := [];
      }
      return true, metadataBuffer;
    }

    /** The loop body once the sync byte has been read. */
    method HandleInterleaved(buffer: seq<Byte>) returns (go: bool, metadataBuffer: seq<Byte>)
      requires Valid()
      modifies this`received, socket, socket.sockBuf, rtpPacket
      ensures Valid()
      ensures match AfterDollar(old(socket.stream), buffer, rtpChannel, maxMetadataFrameSize)
              case Stop => !go && received == old(received)
              case Next(rest, grown, out) =>
                go && socket.stream == rest && metadataBuffer == grown && received == old(received) + out
    {
      metadataBuffer := buffer;
      var channel, payloadLen;
      go, channel, payloadLen := ReadInterleaved();
      if go && channel == rtpChannel {
        go, metadataBuffer := HandlePacket(payloadLen, buffer);
      }
    }

    /** The body of the receive loop. */
    method RunOnce(buffer: seq<Byte>) returns (go: bool, metadataBuffer: seq<Byte>)
      requires Valid()
      modifies this`received, socket, socket.sockBuf, rtpPacket
      ensures Valid()
      ensures match OnePass(old(socket.stream), buffer, rtpChannel, maxMetadataFrameSize)
              case Stop => !go && received == old(received)
              case Next(rest, grown, out) =>
                go && socket.stream == rest && metadataBuffer == grown && received == old(received) + out
    {
      metadataBuffer := buffer;
      var sync;
      go, sync := socket.ReadByte();
      if go && sync == DOLLAR {
        go, metadataBuffer := HandleInterleaved(buffer);
      }
    }

    /** The receive loop. Another thread's cancellation is seen after
        `passesBeforeCancel` passes; every pass consumes at least one byte. */
    method Run(passesBeforeCancel: nat)
      requires Valid()
      modifies this`received, socket, socket.sockBuf, rtpPacket
      ensures Valid()
      ensures received <= old(received) + Deliver(old(socket.stream), [], rtpChannel, maxMetadataFrameSize)
      ensures passesBeforeCancel > |old(socket.stream)| ==>
                received == old(received) + Deliver(old(socket.stream), [], rtpChannel, maxMetadataFrameSize)
    {
      var metadataBuffer: seq<Byte> := [];
      var passes := 0;
      ghost var total := |socket.stream|;
      ghost var goal := received + Deliver(socket.stream, [], rtpChannel, maxMetadataFrameSize);
      var go := true;
      while go && passes < passesBeforeCancel
        invariant Valid()
        invariant go ==> passes + |socket.stream| <= total
        invariant go ==> received + Deliver(socket.stream, metadataBuffer, rtpChannel, maxMetadataFrameSize) == goal
        invariant !go ==> received == goal
        decreases go, |socket.stream|
      {
        passes := passes + 1;
        DeliverStep(received, socket.stream, metadataBuffer, rtpChannel, maxMetadataFrameSize);
        go, metadataBuffer := RunOnce(metadataBuffer);
      }
    }
  }

  lemma DeliverStep(r: seq<seq<Byte>>, stream: seq<Byte>, buffer: seq<Byte>, channel: int, cap: nat)
    ensures match OnePass(stream, buffer, channel, cap)
            case Stop => r + Deliver(stream, buffer, channel, cap) == r
            case Next(rest, grown, out) =>
              r + Deliver(stream, buffer, channel, cap) == (r + out) + Deliver(rest, grown, channel, cap)
  {}
}
