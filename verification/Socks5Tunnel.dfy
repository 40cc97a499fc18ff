/** socks5PacketConn: datagrams in and out of the tunnel through a scratch buffer that is reused for every one. */
module Socks5Tunnel {
  import opened Common
  import opened Socks5Udp

  // ----- Encoding and decoding in the scratch buffer

  method CopyTo(dst: array<Byte>, at: nat, bytes: Bytes)
    requires at + |bytes| <= dst.Length
    modifies dst
    ensures dst[..at + |bytes|] == old(dst[..at]) + bytes && dst[at + |bytes|..] == old(dst[at + |bytes|..])
  {
    for i := 0 to |bytes|
      invariant dst[..at] == old(dst[..at]) && dst[at..at + i] == bytes[..i]
      invariant dst[at + |bytes|..] == old(dst[at + |bytes|..])
    {
      dst[at + i] := bytes[i];
    }
    assert dst[..at + |bytes|] == dst[..at] + dst[at..at + |bytes|];
  }

  /** encodeSocks5UDPHeader. */
  method EncodeHeader(dst: array<Byte>, addr: UDPAddr) returns (n: nat)
    requires dst.Length >= MAX_HEADER
    modifies dst
    ensures n == |Header(addr)| && dst[..n] == Header(addr)
  {
    CopyTo(dst, 0, [0, 0, 0]);
    var ip4 := To4(addr.ip);
    var offset := 4;
    if ip4.Some? {
      CopyTo(dst, 3, [ATYP_IPV4]);
      CopyTo(dst, 4, ip4.value);
      offset := offset + |ip4.value|;
    } else {
      CopyTo(dst, 3, [ATYP_IPV6]);
      CopyTo(dst, 4, To16(addr.ip));
      offset := offset + |To16(addr.ip)|;
    }
    assert dst[..offset] == [0, 0, 0] + AddrBytes(addr.ip);
    CopyTo(dst, offset, PutUint16(addr.port));
    n := offset + 2;
  }

  /**
  decodeSocks5UDPHeader on the first n bytes of the buffer. The address is copied out of the buffer: it lives in an
  array of its own.
  */
  method DecodeHeader(data: array<Byte>, n: nat) returns (ok: bool, ip: array<Byte>, port: int, offset: nat)
    requires n <= data.Length
    ensures ok <==> Decode(data[..n]).Some?
    ensures fresh(ip) && (ok ==> Decode(data[..n]) == Some((UDPAddr(ip[..], port), offset)))
  {
    ip := new Byte[0];
    port, offset := 0, 0;
    if n < 4 || data[2] != 0 || AddrLength(data[3]).None? {
      return false, ip, 0, 0;
    }
    var length := AddrLength(data[3]).value;
    if n < 4 + length + 2 {
      return false, ip, 0, 0;
    }
    ip := new Byte[length];
    for i := 0 to length
      invariant ip[..i] == data[4..4 + i]
    {
      ip[i] := data[4 + i];
    }
    assert ip[..] == ip[..length] && data[..n][4..4 + length] == data[4..4 + length];
    port := Uint16(data[4 + length], data[5 + length]);
    offset := 4 + length + 2;
    ok := true;
  }

  // ----- The stream of datagrams

  /** What the local socket delivers: a datagram and its source (unknown for some sockets), or an error. */
  datatype Event = Datagram(src: Option<Bytes>, data: Bytes) | ReadError

  /** The part of a datagram that fits the scratch buffer. */
  function Received(data: Bytes): (r: Bytes)
    ensures |r| <= MAX_PACKET
  {
    if |data| <= MAX_PACKET then data else data[..MAX_PACKET]
  }

  predicate FromRelay(e: Event, relay: Bytes) {
    e.Datagram? && (e.src.None? || SameIP(e.src.value, relay))
  }

  /** A payload and the address its header names. */
  datatype Packet = Packet(payload: Bytes, addr: UDPAddr)

  /** What the tunnel makes of one datagram. */
  function Accept(e: Event, relay: Bytes): Option<Packet> {
    if !FromRelay(e, relay) || Decode(Received(e.data)).None? then None
    else
      var (addr, offset) := Decode(Received(e.data)).value;
      Some(Packet(Received(e.data)[offset..], addr))
  }

  /** One ReadFrom: skip to the first acceptable datagram; an error ends the call. */
  function Next(events: seq<Event>, relay: Bytes): (Option<Packet>, seq<Event>) {
    if events == [] then (None, [])
    else if events[0].ReadError? then (None, events[1..])
    else if Accept(events[0], relay).Some? then (Accept(events[0], relay), events[1..])
    else Next(events[1..], relay)
  }

  /** The packets of a stream of datagrams: those of the acceptable ones, in order. */
  function Packets(events: seq<Event>, relay: Bytes): seq<Packet> {
    if events == [] then []
    else
      var p := Accept(events[0], relay);
      (if p.Some? then [p.value] else []) + Packets(events[1..], relay)
  }

  predicate NoErrors(events: seq<Event>) {
    forall i :: 0 <= i < |events| ==> events[i].Datagram?
  }

  /** One ReadFrom takes exactly the next packet off the stream. */
  lemma {:induction false} NextTakesOne(events: seq<Event>, relay: Bytes)
    requires NoErrors(events)
    ensures var (p, rest) := Next(events, relay);
            && |rest| <= |events| && NoErrors(rest) && (p.Some? ==> |rest| < |events|)
            && Packets(events, relay) == (if p.Some? then [p.value] else []) + Packets(rest, relay)
            && (p.None? ==> rest == []) && (p.Some? ==> |p.value.payload| <= MAX_PACKET)
  {
    if events != [] && Accept(events[0], relay).None? {
      NextTakesOne(events[1..], relay);
    }
  }

  // ----- What the stream delivers

  /** A source the tunnel listens to: an unknown one, or the relay's address in either form. */
  predicate IsRelay(src: Option<Bytes>, relay: Bytes) {
    || src.None? || src.value == relay
    || (|src.value| == 4 && relay == [0, 0, 0, 0, 0, 0, 0, 0, 0, 0, 255, 255] + src.value)
    || (|relay| == 4 && src.value == [0, 0, 0, 0, 0, 0, 0, 0, 0, 0, 255, 255] + relay)
  }

  /** A header that names this address, and then this payload. */
  ghost predicate Carries(data: Bytes, packet: Packet) {
    exists offset: nat :: Says(data, packet.addr, offset) && packet.payload == data[offset..]
  }

  /** The first 65535 bytes of a datagram from the relay carry this packet. */
  ghost predicate Delivers(e: Event, relay: Bytes, packet: Packet) {
    e.Datagram? && IsRelay(e.src, relay) && Carries(if |e.data| > 65535 then e.data[..65535] else e.data, packet)
  }

  lemma FromRelayMeans(e: Event, relay: Bytes)
    ensures FromRelay(e, relay) <==> e.Datagram? && IsRelay(e.src, relay)
  {
    if e.Datagram? && e.src.Some? {
      SameIPMeans(e.src.value, relay);
    }
  }

  lemma AcceptExactly(e: Event, relay: Bytes, packet: Packet)
    ensures Accept(e, relay) == Some(packet) <==> Delivers(e, relay, packet)
  {
    FromRelayMeans(e, relay);
    if Accept(e, relay) == Some(packet) {
      var data := if |e.data| > 65535 then e.data[..65535] else e.data;
      assert data == Received(e.data);
      var offset := Decode(data).value.1;
      DecodeExactly(data, packet.addr, offset);
      assert Says(data, packet.addr, offset) && packet.payload == data[offset..];
    }
    if Delivers(e, relay, packet) {
      var data := if |e.data| > 65535 then e.data[..65535] else e.data;
      assert data == Received(e.data);
      var offset: nat :| Says(data, packet.addr, offset) && packet.payload == data[offset..];
      DecodeExactly(data, packet.addr, offset);
      assert packet == Packet(data[offset..], packet.addr);
    }
  }

  lemma {:induction false} PacketsAppend(a: seq<Event>, b: seq<Event>, relay: Bytes)
    ensures Packets(a + b, relay) == Packets(a, relay) + Packets(b, relay)
  {
    if a == [] {
      assert a + b == b;
    } else {
      PacketsAppend(a[1..], b, relay);
      assert (a + b)[1..] == a[1..] + b;
      var p := Accept(a[0], relay);
      ConcatAssociates(if p.Some? then [p.value] else [], Packets(a[1..], relay), Packets(b, relay));
    }
  }

  /** The datagrams of a stream whose source the tunnel listens to. */
  function FromTheRelay(events: seq<Event>, relay: Bytes): seq<Event> {
    if events == [] then []
    else
      var keep := events[0].Datagram? && IsRelay(events[0].src, relay);
      (if keep then [events[0]] else []) + FromTheRelay(events[1..], relay)
  }

  /** Datagrams from elsewhere change nothing that is returned. */
  lemma {:induction false} ForeignChangesNothing(events: seq<Event>, relay: Bytes)
    ensures Packets(events, relay) == Packets(FromTheRelay(events, relay), relay)
  {
    if events != [] {
      ForeignChangesNothing(events[1..], relay);
      if Accept(events[0], relay).Some? {
        AcceptExactly(events[0], relay, Accept(events[0], relay).value);
      }
      var keep := events[0].Datagram? && IsRelay(events[0].src, relay);
      var head := if keep then [events[0]] else [];
      PacketsAppend(head, FromTheRelay(events[1..], relay), relay);
      assert keep ==> head[1..] == [];
    }
  }

  /**
  Every packet of a stream stems from a datagram that delivers it, and a datagram that delivers a packet adds exactly
  that one, after the packets of those before it and before those of the ones after it.
  */
  lemma {:induction false} PacketsExactly(events: seq<Event>, relay: Bytes, packet: Packet)
    ensures packet in Packets(events, relay) <==> exists i :: 0 <= i < |events| && Delivers(events[i], relay, packet)
    ensures forall i :: 0 <= i < |events| && Delivers(events[i], relay, packet) ==>
              Packets(events, relay) == Packets(events[..i], relay) + [packet] + Packets(events[i + 1..], relay)
  {
    forall i | 0 <= i < |events| && Delivers(events[i], relay, packet)
      ensures Packets(events, relay) == Packets(events[..i], relay) + [packet] + Packets(events[i + 1..], relay)
    {
      AcceptExactly(events[i], relay, packet);
      PacketsAppend(events[..i], events[i..], relay);
      assert events == events[..i] + events[i..] && events[i..][1..] == events[i + 1..];
      assert Packets(events[i..], relay) == [packet] + Packets(events[i + 1..], relay);
    }
    if packet in Packets(events, relay) {
      PacketsStem(events, relay, packet);
    }
  }

  lemma {:induction false} PacketsStem(events: seq<Event>, relay: Bytes, packet: Packet)
    requires packet in Packets(events, relay)
    ensures exists i :: 0 <= i < |events| && Delivers(events[i], relay, packet)
  {
    if Accept(events[0], relay) == Some(packet) {
      AcceptExactly(events[0], relay, packet);
    } else {
      PacketsStem(events[1..], relay, packet);
      var i :| 0 <= i < |events[1..]| && Delivers(events[1..][i], relay, packet);
      assert Delivers(events[i + 1], relay, packet);
    }
  }

  /** Some datagram of the stream delivers this packet. */
  ghost predicate IsDelivered(events: seq<Event>, relay: Bytes, packet: Packet) {
    exists i :: 0 <= i < |events| && Delivers(events[i], relay, packet)
  }

  lemma AllStem(events: seq<Event>, relay: Bytes)
    ensures forall i :: 0 <= i < |Packets(events, relay)| ==> IsDelivered(events, relay, Packets(events, relay)[i])
  {
    forall i | 0 <= i < |Packets(events, relay)|
      ensures IsDelivered(events, relay, Packets(events, relay)[i])
    {
      PacketsStem(events, relay, Packets(events, relay)[i]);
    }
  }

  // ----- The connection

  class PacketConn {
    const relayIP: Bytes
    /** What the local socket will deliver, and what has been sent to the relay. */
    var inbox: seq<Event>
    var sent: seq<Bytes>

    constructor (relayIP: Bytes, inbox: seq<Event>)
      ensures this.relayIP == relayIP && this.inbox == inbox && sent == []
    {
      this.relayIP, this.inbox, this.sent := relayIP, inbox, [];
    }

    /** WriteTo: what goes to the relay is the header and the whole payload, in at most 65535 bytes; or nothing. */
    method WriteTo(scratch: array<Byte>, p: Bytes, addr: UDPAddr, sends: bool) returns (n: nat, ok: bool)
      requires scratch.Length == MAX_PACKET
      modifies this, scratch
      ensures inbox == old(inbox)
      ensures ok <==> |p| <= 65535 - 22 && sends
      ensures n == (if ok then |p| else 0) && sent == (if ok then old(sent) + [Header(addr) + p] else old(sent))
      ensures ok ==> |Header(addr) + p| <= 65535
    {
      if |p| > MAX_PACKET - MAX_HEADER {
        return 0, false;
      }
      var headerLen := EncodeHeader(scratch, addr);
      CopyTo(scratch, headerLen, p);
      if !sends {
        return 0, false;
      }
      sent := sent + [scratch[..headerLen + |p|]];
      return |p|, true;
    }

    /**
    ReadFrom: the next packet of the stream, cut to the caller's buffer, with its address in memory of its own. The
    scratch buffer may hold anything before and after.
    */
    method ReadFrom(scratch: array<Byte>, p: array<Byte>) returns (ok: bool, n: nat, ip: array<Byte>, port: int)
      requires scratch.Length == MAX_PACKET && scratch != p
      modifies this`inbox, scratch, p
      ensures inbox == Next(old(inbox), relayIP).1 && ok == Next(old(inbox), relayIP).0.Some?
      ensures fresh(ip)
      ensures ok ==>
        var packet := Next(old(inbox), relayIP).0.value;
        && packet.addr == UDPAddr(ip[..], port)
        && n == (if |packet.payload| <= p.Length then |packet.payload| else p.Length)
        && p[..n] == packet.payload[..n] && p[n..] == old(p[n..])
      ensures !ok ==> p[..] == old(p[..])
    {
      while true
        invariant Next(inbox, relayIP) == Next(old(inbox), relayIP)
        invariant p[..] == old(p[..])
        decreases |inbox|
      {
        if inbox == [] {
          ip := new Byte[0];
          return false, 0, ip, 0;
        }
        var e := inbox[0];
        inbox := inbox[1..];
        if e.ReadError? {
          ip := new Byte[0];
          return false, 0, ip, 0;
        }
        var got := Received(e.data);
        CopyTo(scratch, 0, got);
        assert scratch[..|got|] == got;
        if e.src.Some? && !SameIP(e.src.value, relayIP) {
          continue;
        }
        var decoded, offset;
        decoded, ip, port, offset := DecodeHeader(scratch, |got|);
        if !decoded {
          continue;
        }
        ok := true;
        n := CopyOut(p, scratch[offset..|got|]);
        return;
      }
    }
  }

  /** copy(p, bytes). */
  method CopyOut(p: array<Byte>, bytes: Bytes) returns (n: nat)
    modifies p
    ensures n == (if |bytes| <= p.Length then |bytes| else p.Length)
    ensures p[..n] == bytes[..n] && p[n..] == old(p[n..])
  {
    n := if |bytes| <= p.Length then |bytes| else p.Length;
    CopyTo(p, 0, bytes[..n]);
  }

  // ----- Draining a stream

  /**
  Repeated ReadFrom calls with a buffer that any datagram fits, through one scratch buffer: the payloads returned are
  exactly those of the stream's packets, in order, and at the end every address returned along the way still has the
  bytes it was returned with.
  */
  method ReadAll(conn: PacketConn, scratch: array<Byte>, p: array<Byte>)
      returns (payloads: seq<Bytes>, ips: seq<array<Byte>>, ports: seq<int>)
    requires scratch.Length == MAX_PACKET == p.Length && scratch != p && NoErrors(conn.inbox)
    modifies conn`inbox, scratch, p
    ensures var packets := Packets(old(conn.inbox), conn.relayIP);
            && |payloads| == |ips| == |ports| == |packets|
            && forall i :: 0 <= i < |packets| ==> packets[i] == Packet(payloads[i], UDPAddr(ips[i][..], ports[i]))
    ensures forall i :: 0 <= i < |payloads| ==>
              IsDelivered(old(conn.inbox), conn.relayIP, Packet(payloads[i], UDPAddr(ips[i][..], ports[i])))
  {
    payloads, ips, ports := [], [], [];
    ghost var done: seq<Packet> := [];
    ghost var all := Packets(conn.inbox, conn.relayIP);
    while true
      invariant NoErrors(conn.inbox) && done + Packets(conn.inbox, conn.relayIP) == all
      invariant |payloads| == |ips| == |ports| == |done|
      invariant forall i :: 0 <= i < |done| ==>
                  ips[i] != scratch && ips[i] != p && done[i] == Packet(payloads[i], UDPAddr(ips[i][..], ports[i]))
      decreases |conn.inbox|
    {
      NextTakesOne(conn.inbox, conn.relayIP);
      ghost var packet := Next(conn.inbox, conn.relayIP).0;
      var ok, n, ip, port := conn.ReadFrom(scratch, p);
      if !ok {
        break;
      }
      done := done + [packet.value];
      payloads, ips, ports := payloads + [p[..n]], ips + [ip], ports + [port];
    }
    AllStem(old(conn.inbox), conn.relayIP);
  }

  /** A packet sent through the tunnel and mirrored by the relay comes back with the same payload and address. */
  lemma TunnelEcho(addr: UDPAddr, p: Bytes, relay: Bytes)
    requires IsIP(addr.ip) && 0 <= addr.port < 65536 && |p| <= MAX_PACKET - MAX_HEADER
    ensures var mirrored := Datagram(Some(relay), Header(addr) + p);
            Accept(mirrored, relay) == Some(Packet(p, UDPAddr(Canonical(addr.ip), addr.port)))
  {
    HeaderRoundTrip(addr, p);
    assert (Header(addr) + p)[|Header(addr)|..] == p;
  }
}
