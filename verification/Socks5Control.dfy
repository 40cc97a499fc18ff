/**
The control connection of socks5_udp.go: method negotiation (section 3 of RFC 1928), username and password (section 2
of RFC 1929) and UDP ASSOCIATE (sections 4 and 6 of RFC 1928).
*/
module Socks5Control {
  import opened Common
  import opened Socks5Udp

  datatype Auth = Auth(user: Bytes, password: Bytes)

  // ----- What the client writes

  /** The methods a client offers: no authentication, and username/password when it has credentials. */
  function Methods(auth: Option<Auth>): Bytes {
    if auth.Some? then [0, 2] else [0]
  }

  function Greeting(auth: Option<Auth>): Bytes {
    [5, |Methods(auth)|] + Methods(auth)
  }

  predicate Fits(auth: Auth) {
    |auth.user| <= 255 && |auth.password| <= 255
  }

  function AuthMessage(auth: Auth): Bytes
    requires Fits(auth)
  {
    [1, |auth.user|] + auth.user + [|auth.password|] + auth.password
  }

  /** What the client sends beside the greeting: the credentials, once the server has selected that method. */
  function Credentials(auth: Option<Auth>, s: Bytes): Bytes {
    if |s| >= 2 && s[1] == 2 && auth.Some? && Fits(auth.value) then AuthMessage(auth.value) else []
  }

  /** The server's reading of section 2 of RFC 1929. */
  function ParseAuth(msg: Bytes): Option<Auth> {
    if |msg| < 2 || msg[0] != 1 || |msg| - 3 < msg[1] then None
    else
      var ulen: int := msg[1];
      var user, tail := msg[2..2 + ulen], msg[2 + ulen..];
      if |tail| - 1 != tail[0] then None else Some(Auth(user, tail[1..]))
  }

  /** Both credentials are recovered from the message, for all lengths up to 255. */
  lemma AuthRoundTrip(auth: Auth)
    requires Fits(auth)
    ensures ParseAuth(AuthMessage(auth)) == Some(auth)
  {
    var msg := AuthMessage(auth);
    assert msg[2..2 + |auth.user|] == auth.user;
    assert msg[2 + |auth.user|..] == [|auth.password|] + auth.password;
  }

  predicate Unspecified(ip: Bytes) {
    SameIP(ip, [0, 0, 0, 0]) || SameIP(ip, [0, 0, 0, 0, 0, 0, 0, 0, 0, 0, 0, 0, 0, 0, 0, 0])
  }

  /** The address announced in the request: the client's own, or 0.0.0.0:0 when it is not known. */
  function Announced(client: Option<UDPAddr>): UDPAddr {
    if client.Some? && !Unspecified(client.value.ip) then client.value else UDPAddr([0, 0, 0, 0], 0)
  }

  function AssociateRequest(client: Option<UDPAddr>): Bytes {
    [5, 3, 0] + AddrBytes(Announced(client).ip) + PutUint16(Announced(client).port)
  }

  // ----- What the server writes

  /** The method reply, and the reply to the credentials where they were asked for. */
  predicate IsHandshakeReply(auth: Option<Auth>, bytes: Bytes) {
    || bytes == [5, 0]
    || (auth.Some? && Fits(auth.value) && |bytes| == 4 && bytes[0] == 5 && bytes[1] == 2 && bytes[3] == 0)
  }

  datatype Bnd = V4(ip: Bytes) | V6(ip: Bytes) | Name(name: Bytes)

  predicate BndOk(bnd: Bnd) {
    match bnd
    case V4(ip) => |ip| == 4
    case V6(ip) => |ip| == 16
    case Name(name) => |name| <= 255
  }

  /** A successful reply as section 6 of RFC 1928 prints it; the reserved byte is not looked at. */
  function PrintReply(rsv: Byte, bnd: Bnd, port: nat): Bytes
    requires BndOk(bnd)
  {
    [5, 0, rsv] + PrintBnd(bnd) + PutUint16(port)
  }

  function PrintBnd(bnd: Bnd): Bytes
    requires BndOk(bnd)
  {
    match bnd
    case V4(ip) => [1] + ip
    case V6(ip) => [4] + ip
    case Name(name) => [3, |name|] + name
  }

  // ----- Reading the replies

  function AfterHandshake(auth: Option<Auth>, s: Bytes): Option<Bytes> {
    if |s| >= 2 && s[0] == 5 && s[1] == 0 then Some(s[2..])
    else if |s| >= 4 && s[0] == 5 && s[1] == 2 && auth.Some? && Fits(auth.value) && s[3] == 0 then Some(s[4..])
    else None
  }

  /** How many messages the client writes in the handshake that a stream answers. */
  function Messages(s: Bytes): nat {
    if |s| >= 2 && s[1] == 2 then 2 else 1
  }

  /** ATYP and BND.ADDR, and what follows them. */
  function ParseBnd(s: Bytes): (r: Option<(Bnd, Bytes)>)
    ensures r.Some? ==> BndOk(r.value.0)
  {
    if |s| >= 5 && s[0] == 1 then Some((V4(s[1..5]), s[5..]))
    else if |s| >= 17 && s[0] == 4 then Some((V6(s[1..17]), s[17..]))
    else if |s| >= 2 && s[0] == 3 && |s| - 2 >= s[1] then
      var length: int := s[1];
      Some((Name(s[2..2 + length]), s[2 + length..]))
    else None
  }

  function ParseReply(s: Bytes): (r: Option<(Bnd, nat, Bytes)>)
    ensures r.Some? ==> BndOk(r.value.0)
  {
    if |s| < 4 || s[0] != 5 || s[1] != 0 || ParseBnd(s[3..]).None? then None
    else
      var (bnd, rest) := ParseBnd(s[3..]).value;
      if |rest| < 2 then None else Some((bnd, Uint16(rest[0], rest[1]), rest[2..]))
  }

  /** The relay endpoint for a bound address: names are resolved, and an unspecified address stands for the proxy's. */
  function Endpoint(bnd: Bnd, port: nat, resolve: Bytes -> Option<Bytes>, proxyIP: Option<Bytes>): Option<UDPAddr> {
    var ip := match bnd case V4(ip) => Some(ip) case V6(ip) => Some(ip) case Name(name) => resolve(name);
    if ip.None? then None
    else if !Unspecified(ip.value) then Some(UDPAddr(ip.value, port))
    else if proxyIP.None? then None
    else Some(UDPAddr(proxyIP.value, port))
  }

  /** The whole exchange on the server's byte stream: the relay endpoint and the bytes left unread. */
  function Associate(auth: Option<Auth>, s: Bytes, resolve: Bytes -> Option<Bytes>, proxyIP: Option<Bytes>)
      : Option<(UDPAddr, Bytes)>
  {
    var t := AfterHandshake(auth, s);
    if t.None? || ParseReply(t.value).None? then None
    else
      var (bnd, port, rest) := ParseReply(t.value).value;
      var relay := Endpoint(bnd, port, resolve, proxyIP);
      if relay.None? then None else Some((relay.value, rest))
  }

  lemma HandshakeReplies(auth: Option<Auth>, s: Bytes, reply: Bytes, rest: Bytes)
    ensures IsHandshakeReply(auth, reply) && s == reply + rest ==> AfterHandshake(auth, s) == Some(rest)
    ensures AfterHandshake(auth, s) == Some(rest) ==>
              s == s[..|s| - |rest|] + rest && IsHandshakeReply(auth, s[..|s| - |rest|])
  {
    if IsHandshakeReply(auth, reply) && s == reply + rest {
      assert s[|reply|..] == rest;
    }
  }

  lemma ParsePrintedBnd(bnd: Bnd, rest: Bytes)
    requires BndOk(bnd)
    ensures ParseBnd(PrintBnd(bnd) + rest) == Some((bnd, rest))
  {
    var s := PrintBnd(bnd) + rest;
    assert s[|PrintBnd(bnd)|..] == rest;
    match bnd {
      case V4(ip) => assert s[1..5] == ip;
      case V6(ip) => assert s[1..17] == ip;
      case Name(name) => assert s[2..2 + |name|] == name;
    }
  }

  lemma PrintParsedBnd(s: Bytes)
    requires ParseBnd(s).Some?
    ensures var (bnd, rest) := ParseBnd(s).value; s == PrintBnd(bnd) + rest
  {
  }

  /** A printed reply is parsed back, leaving exactly what follows it. */
  lemma ParsePrinted(rsv: Byte, bnd: Bnd, port: nat, rest: Bytes)
    requires BndOk(bnd) && port < 65536
    ensures ParseReply(PrintReply(rsv, bnd, port) + rest) == Some((bnd, port, rest))
  {
    var s, f := PrintReply(rsv, bnd, port) + rest, PutUint16(port);
    ReplyPieces(rsv, bnd, port, rest);
    ParsePrintedBnd(bnd, f + rest);
    assert (f + rest)[2..] == rest;
    FitsUint16(port);
  }

  lemma ReplyPieces(rsv: Byte, bnd: Bnd, port: nat, rest: Bytes)
    requires BndOk(bnd)
    ensures var s := PrintReply(rsv, bnd, port) + rest;
            |s| >= 4 && s[0] == 5 && s[1] == 0 && s[3..] == PrintBnd(bnd) + (PutUint16(port) + rest)
  {
    var prefix: Bytes := [5, 0, rsv];
    ConcatAssociates(prefix, PrintBnd(bnd), PutUint16(port));
    ConcatAssociates(prefix, PrintBnd(bnd) + PutUint16(port), rest);
    ConcatAssociates(PrintBnd(bnd), PutUint16(port), rest);
  }

  /** And whatever parses was printed. */
  lemma PrintParsed(s: Bytes)
    requires ParseReply(s).Some?
    ensures var (bnd, port, rest) := ParseReply(s).value;
            port < 65536 && s == PrintReply(s[2], bnd, port) + rest
  {
    PrintParsedBnd(s[3..]);
    var (bnd, tail) := ParseBnd(s[3..]).value;
    PortSplits(tail);
    var prefix, field := [s[0], s[1], s[2]], PutUint16(Uint16(tail[0], tail[1]));
    ConcatAssociates(PrintBnd(bnd), field, tail[2..]);
    ConcatAssociates(prefix, PrintBnd(bnd) + field, tail[2..]);
    ConcatAssociates(prefix, PrintBnd(bnd), field);
    assert s == [s[0], s[1], s[2]] + s[3..];
  }

  lemma PortSplits(tail: Bytes)
    requires |tail| >= 2
    ensures tail == PutUint16(Uint16(tail[0], tail[1])) + tail[2..] && Uint16(tail[0], tail[1]) < 65536
  {
    PutUint16Inverts(tail[0], tail[1]);
    assert tail == [tail[0], tail[1]] + tail[2..];
  }

  /** A server stream split into the replies of one successful exchange. */
  datatype Exchange = Exchange(reply: Bytes, rsv: Byte, bnd: Bnd, port: nat, rest: Bytes)

  ghost predicate Spells(x: Exchange, auth: Option<Auth>, s: Bytes) {
    && BndOk(x.bnd) && x.port < 65536 && IsHandshakeReply(auth, x.reply)
    && s == x.reply + (PrintReply(x.rsv, x.bnd, x.port) + x.rest)
  }

  /** 0.0.0.0 in either form, or ::. */
  predicate IsZero(ip: Bytes) {
    || ip == [0, 0, 0, 0] || ip == [0, 0, 0, 0, 0, 0, 0, 0, 0, 0, 255, 255, 0, 0, 0, 0]
    || ip == [0, 0, 0, 0, 0, 0, 0, 0, 0, 0, 0, 0, 0, 0, 0, 0]
  }

  /** The relay is the bound address and port; a name is resolved, and a zero address stands for the proxy's. */
  predicate LeadsTo(bnd: Bnd, port: nat, resolve: Bytes -> Option<Bytes>, proxyIP: Option<Bytes>, relay: UDPAddr) {
    var ip := if bnd.Name? then resolve(bnd.name) else Some(bnd.ip);
    && relay.port == port && ip.Some?
    && (if IsZero(ip.value) then proxyIP == Some(relay.ip) else relay.ip == ip.value)
  }

  lemma UnspecifiedMeans(ip: Bytes)
    ensures Unspecified(ip) <==> IsZero(ip)
  {
    var prefix: Bytes := [0, 0, 0, 0, 0, 0, 0, 0, 0, 0, 255, 255];
    var zero4: Bytes, zero16: Bytes := [0, 0, 0, 0], [0, 0, 0, 0, 0, 0, 0, 0, 0, 0, 0, 0, 0, 0, 0, 0];
    assert prefix + zero4 == [0, 0, 0, 0, 0, 0, 0, 0, 0, 0, 255, 255, 0, 0, 0, 0];
    assert (prefix + ip)[10] == 255 && zero16[10] == 0;
    SameIPMeans(ip, zero4);
    SameIPMeans(ip, zero16);
  }

  lemma EndpointExactly(bnd: Bnd, port: nat, resolve: Bytes -> Option<Bytes>, proxyIP: Option<Bytes>, relay: UDPAddr)
    ensures Endpoint(bnd, port, resolve, proxyIP) == Some(relay) <==> LeadsTo(bnd, port, resolve, proxyIP, relay)
  {
    var ip := if bnd.Name? then resolve(bnd.name) else Some(bnd.ip);
    if ip.Some? {
      UnspecifiedMeans(ip.value);
    }
  }

  /**
  The exchange succeeds with a relay endpoint, leaving rest unread, exactly when the stream is a handshake reply to
  what was offered, a printed reply that leads to that endpoint, and rest.
  */
  lemma AssociateMeans(auth: Option<Auth>, s: Bytes, resolve: Bytes -> Option<Bytes>, proxyIP: Option<Bytes>,
                       relay: UDPAddr, rest: Bytes)
    ensures Associate(auth, s, resolve, proxyIP) == Some((relay, rest)) <==>
            exists x :: Spells(x, auth, s) && x.rest == rest && LeadsTo(x.bnd, x.port, resolve, proxyIP, relay)
  {
    if Associate(auth, s, resolve, proxyIP) == Some((relay, rest)) {
      var t := AfterHandshake(auth, s).value;
      HandshakeReplies(auth, s, [], t);
      PrintParsed(t);
      var (bnd, port, _) := ParseReply(t).value;
      EndpointExactly(bnd, port, resolve, proxyIP, relay);
      assert Spells(Exchange(s[..|s| - |t|], t[2], bnd, port, rest), auth, s);
    }
    if x :| Spells(x, auth, s) && x.rest == rest && LeadsTo(x.bnd, x.port, resolve, proxyIP, relay) {
      EndpointExactly(x.bnd, x.port, resolve, proxyIP, relay);
      HandshakeReplies(auth, s, x.reply, PrintReply(x.rsv, x.bnd, x.port) + x.rest);
      ParsePrinted(x.rsv, x.bnd, x.port, x.rest);
    }
  }

  // ----- On the wire

  /** The messages of the handshake, byte by byte. */
  lemma HandshakeBytes(auth: Auth)
    ensures Greeting(None) == [5, 1, 0] && Greeting(Some(auth)) == [5, 2, 0, 2]
    ensures Fits(auth) <==> |auth.user| < 256 && |auth.password| < 256
    ensures Fits(auth) ==> AuthMessage(auth) == [1, |auth.user|] + auth.user + [|auth.password|] + auth.password
  {
  }

  /** The request of a client whose own address is not known or is zero. */
  lemma AnonymousRequestBytes(client: Option<UDPAddr>)
    requires client.None? || IsZero(client.value.ip)
    ensures AssociateRequest(client) == [5, 3, 0] + [1, 0, 0, 0, 0] + [0, 0]
  {
    if client.Some? {
      UnspecifiedMeans(client.value.ip);
    }
    assert Announced(client) == UDPAddr([0, 0, 0, 0], 0);
    AddrOnWire([0, 0, 0, 0]);
    PutUint16Inverts(0, 0);
  }

  /** And of one that has an address. */
  lemma RequestBytes(ip: Bytes, hi: Byte, lo: Byte)
    requires IsIP(ip) && !IsZero(ip)
    ensures AssociateRequest(Some(UDPAddr(ip, 256 * hi + lo))) == [5, 3, 0] + OnWire(ip) + [hi, lo]
  {
    UnspecifiedMeans(ip);
    assert Announced(Some(UDPAddr(ip, 256 * hi + lo))) == UDPAddr(ip, 256 * hi + lo);
    AddrOnWire(ip);
    PutUint16Inverts(hi, lo);
  }

  /** The credentials are sent exactly if the server selects that method. */
  lemma CredentialBytes(auth: Option<Auth>, s: Bytes)
    ensures Credentials(auth, s) ==
            if auth.Some? && |auth.value.user| < 256 && |auth.value.password| < 256 && |s| >= 2 && s[1] == 2
            then [1, |auth.value.user|] + auth.value.user + [|auth.value.password|] + auth.value.password else []
  {
  }

  /** A successful reply, byte by byte. */
  lemma ReplyBytes(rsv: Byte, bnd: Bnd, hi: Byte, lo: Byte)
    requires BndOk(bnd)
    ensures PrintReply(rsv, bnd, 256 * hi + lo) ==
            match bnd
            case V4(ip) => [5, 0, rsv, 1] + ip + [hi, lo]
            case V6(ip) => [5, 0, rsv, 4] + ip + [hi, lo]
            case Name(name) => [5, 0, rsv, 3, |name|] + name + [hi, lo]
  {
    PutUint16Inverts(hi, lo);
  }

  // ----- The code

  class ControlConn {
    var inbound: Bytes
    var outbound: Bytes
    /** How many more writes will succeed. */
    var writes: nat

    constructor (inbound: Bytes, writes: nat)
      ensures this.inbound == inbound && outbound == [] && this.writes == writes
    {
      this.inbound, this.outbound, this.writes := inbound, [], writes;
    }

    method Write(bytes: Bytes) returns (ok: bool)
      modifies this
      ensures ok <==> old(writes) > 0
      ensures inbound == old(inbound)
      ensures ok ==> outbound == old(outbound) + bytes && writes == old(writes) - 1
    {
      if writes == 0 {
        return false;
      }
      outbound, writes := outbound + bytes, writes - 1;
      ok := true;
    }

    /** io.ReadFull. */
    method ReadFull(n: nat) returns (bytes: Bytes, ok: bool)
      modifies this
      ensures ok <==> n <= |old(inbound)|
      ensures outbound == old(outbound) && writes == old(writes)
      ensures ok ==> |bytes| == n && bytes == old(inbound)[..n] && inbound == old(inbound)[n..]
    {
      if n > |inbound| {
        bytes, inbound := inbound, [];
        return bytes, false;
      }
      bytes, inbound := inbound[..n], inbound[n..];
      ok := true;
    }

    method UsernamePasswordAuth(auth: Auth) returns (ok: bool)
      modifies this
      ensures ok <==> Fits(auth) && old(writes) > 0 && |old(inbound)| >= 2 && old(inbound)[1] == 0
      ensures ok ==> inbound == old(inbound)[2..] && writes == old(writes) - 1
      ensures ok ==> outbound == old(outbound) + AuthMessage(auth)
    {
      if |auth.user| > 255 || |auth.password| > 255 {
        return false;
      }
      ok := Write([1, |auth.user|] + auth.user + [|auth.password|] + auth.password);
      if !ok {
        return;
      }
      var resp;
      resp, ok := ReadFull(2);
      if ok && resp[1] != 0 {
        ok := false;
      }
    }

    method Handshake(auth: Option<Auth>) returns (ok: bool)
      modifies this
      ensures ok <==> AfterHandshake(auth, old(inbound)).Some? && old(writes) >= Messages(old(inbound))
      ensures ok ==> AfterHandshake(auth, old(inbound)) == Some(inbound)
      ensures ok ==> writes == old(writes) - Messages(old(inbound))
      ensures ok ==> outbound == old(outbound) + Greeting(auth) + Credentials(auth, old(inbound))
    {
      ok := Write(Greeting(auth));
      if !ok {
        return;
      }
      var resp;
      resp, ok := ReadFull(2);
      if !ok {
        return;
      }
      if resp[0] != 5 {
        return false;
      }
      if resp[1] == 0 {
        return true;
      }
      if resp[1] != 2 || auth.None? {
        return false;
      }
      ok := UsernamePasswordAuth(auth.value);
    }

    /** The reply to UDP ASSOCIATE up to BND.PORT. */
    method ReadBnd(atyp: Byte) returns (bnd: Bnd, ok: bool)
      modifies this
      ensures outbound == old(outbound) && writes == old(writes)
      ensures ok <==> ParseBnd([atyp] + old(inbound)).Some?
      ensures ok ==> ParseBnd([atyp] + old(inbound)) == Some((bnd, inbound))
    {
      ghost var s := [atyp] + inbound;
      var bytes;
      if atyp == 1 {
        bytes, ok := ReadFull(4);
        bnd := V4(bytes);
        assert ok ==> s[1..5] == bytes && s[5..] == inbound;
      } else if atyp == 4 {
        bytes, ok := ReadFull(16);
        bnd := V6(bytes);
        assert ok ==> s[1..17] == bytes && s[17..] == inbound;
      } else if atyp == 3 {
        bytes, ok := ReadFull(1);
        if !ok {
          return Name([]), false;
        }
        var length: int := bytes[0];
        assert s[1] == length && s[2..] == inbound;
        bytes, ok := ReadFull(length);
        bnd := Name(bytes);
        assert ok ==> s[2..2 + length] == bytes && s[2 + length..] == inbound;
      } else {
        return Name([]), false;
      }
    }

    method ReadReply() returns (bnd: Bnd, port: nat, ok: bool)
      modifies this
      ensures outbound == old(outbound) && writes == old(writes)
      ensures ok <==> ParseReply(old(inbound)).Some?
      ensures ok ==> ParseReply(old(inbound)) == Some((bnd, port, inbound))
    {
      ghost var s := inbound;
      var header;
      header, ok := ReadFull(4);
      if !ok || header[0] != 5 || header[1] != 0 {
        return Name([]), 0, false;
      }
      assert s[3..] == [header[3]] + inbound;
      bnd, ok := ReadBnd(header[3]);
      if !ok {
        return bnd, 0, false;
      }
      var bytes;
      bytes, ok := ReadFull(2);
      port := if ok then Uint16(bytes[0], bytes[1]) else 0;
    }

    /**
    socks5UDPAssociate on an open control connection. It returns a relay exactly when the server's bytes spell a
    successful exchange and none of the writes it takes fails; then it has consumed no more than those replies, and has
    sent the greeting, the credentials if the server asked for them, and the request.
    */
    method UDPAssociate(auth: Option<Auth>, client: Option<UDPAddr>, resolve: Bytes -> Option<Bytes>,
                        proxyIP: Option<Bytes>)
        returns (relay: Option<UDPAddr>)
      modifies this
      ensures relay.Some? ==> Associate(auth, old(inbound), resolve, proxyIP) == Some((relay.value, inbound))
      ensures relay.Some? <==>
              Associate(auth, old(inbound), resolve, proxyIP).Some? && old(writes) > Messages(old(inbound))
      ensures relay.Some? ==>
                exists x ::
                  && Spells(x, auth, old(inbound)) && x.rest == inbound
                  && LeadsTo(x.bnd, x.port, resolve, proxyIP, relay.value)
      ensures relay.Some? ==>
                outbound == old(outbound) + Greeting(auth) + Credentials(auth, old(inbound)) + AssociateRequest(client)
    {
      var ok := Handshake(auth);
      if !ok {
        return None;
      }
      ok := Write(AssociateRequest(client));
      if !ok {
        return None;
      }
      var bnd, port;
      bnd, port, ok := ReadReply();
      if !ok {
        return None;
      }
      relay := Endpoint(bnd, port, resolve, proxyIP);
      if relay.Some? {
        AssociateMeans(auth, old(inbound), resolve, proxyIP, relay.value, inbound);
      }
    }
  }
}
