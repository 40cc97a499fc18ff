/** The UDP side of socks5_udp.go: the header codec of section 7 of RFC 1928 and the tunnel's packet connection. */
module Socks5Udp {
  import opened Common

  // ----- net.IP

  const V4_PREFIX: Bytes := [0, 0, 0, 0, 0, 0, 0, 0, 0, 0, 255, 255]

  /** net.IP.To4: the 4-byte form of an IPv4 address, also of one mapped into 16 bytes. */
  function To4(ip: Bytes): (r: Option<Bytes>)
    ensures r.Some? ==> |r.value| == 4
    ensures |ip| == 4 ==> r == Some(ip)
  {
    if |ip| == 4 then Some(ip)
    else if |ip| == 16 && ip[..12] == V4_PREFIX then Some(ip[12..])
    else None
  }

  /** net.IP.To16; nil becomes the empty sequence. */
  function To16(ip: Bytes): Bytes {
    if |ip| == 4 then V4_PREFIX + ip else if |ip| == 16 then ip else []
  }

  /** net.IP.Equal: an IPv4 address and its mapped form are the same address. */
  predicate SameIP(a: Bytes, b: Bytes) {
    if |a| == |b| then a == b
    else if |a| == 4 && |b| == 16 then b == V4_PREFIX + a
    else if |a| == 16 && |b| == 4 then a == V4_PREFIX + b
    else false
  }

  predicate IsIP(ip: Bytes) {
    |ip| == 4 || |ip| == 16
  }

  /** The form in which the codec returns an address. */
  function Canonical(ip: Bytes): Bytes {
    if To4(ip).Some? then To4(ip).value else ip
  }

  // ----- The header

  datatype UDPAddr = UDPAddr(ip: Bytes, port: int)

  const ATYP_IPV4: Byte := 1
  const ATYP_IPV6: Byte := 4
  const MAX_PACKET := 65535
  const MAX_HEADER := 22

  /** ATYP and DST.ADDR. */
  function AddrBytes(ip: Bytes): (r: Bytes)
    ensures 1 <= |r| <= 17
  {
    if To4(ip).Some? then [ATYP_IPV4] + To4(ip).value else [ATYP_IPV6] + To16(ip)
  }

  /** RSV, FRAG, ATYP, DST.ADDR, DST.PORT. */
  function Header(addr: UDPAddr): (r: Bytes)
    ensures |r| <= MAX_HEADER
  {
    [0, 0, 0] + AddrBytes(addr.ip) + PutUint16(addr.port)
  }

  /** How many address bytes an ATYP announces; names and unknown types are refused. */
  function AddrLength(atyp: Byte): Option<nat> {
    if atyp == ATYP_IPV4 then Some(4) else if atyp == ATYP_IPV6 then Some(16) else None
  }

  /** The address and where the payload starts. Decoding never looks past the input. */
  function Decode(data: Bytes): (r: Option<(UDPAddr, nat)>)
    ensures r.Some? ==> r.value.1 <= |data| && IsIP(r.value.0.ip) && 0 <= r.value.0.port < 65536
  {
    if |data| < 4 || data[2] != 0 || AddrLength(data[3]).None? then None
    else
      var end := 4 + AddrLength(data[3]).value;
      if |data| < end + 2 then None
      else Some((UDPAddr(data[4..end], Uint16(data[end], data[end + 1])), end + 2))
  }

  /** The pieces of a header in a longer datagram. */
  lemma DecodePieces(rsv: Bytes, atyp: Byte, ip: Bytes, hi: Byte, lo: Byte, payload: Bytes)
    requires |rsv| == 2 && AddrLength(atyp) == Some(|ip|)
    ensures var header := rsv + [0, atyp] + ip + [hi, lo];
            Decode(header + payload) == Some((UDPAddr(ip, Uint16(hi, lo)), |header|))
  {
    var data := rsv + [0, atyp] + ip + [hi, lo] + payload;
    assert data[2] == 0 && data[3] == atyp && data[4..4 + |ip|] == ip;
    assert data[4 + |ip|] == hi && data[5 + |ip|] == lo;
  }

  lemma HeaderPieces(addr: UDPAddr)
    requires IsIP(addr.ip)
    ensures var f := PutUint16(addr.port);
            var atyp := if To4(addr.ip).Some? then ATYP_IPV4 else ATYP_IPV6;
            && Header(addr) == [0, 0] + [0, atyp] + Canonical(addr.ip) + [f[0], f[1]]
            && AddrLength(atyp) == Some(|Canonical(addr.ip)|)
  {
    var f := PutUint16(addr.port);
    assert f == [f[0], f[1]];
  }

  /**
  Decoding an encoded header followed by any payload returns the address in canonical form, the port and the offset
  of the payload exactly when the address has 4 or 16 bytes and the port fits 16 bits.
  */
  lemma HeaderRoundTrip(addr: UDPAddr, payload: Bytes)
    ensures Decode(Header(addr) + payload) == Some((UDPAddr(Canonical(addr.ip), addr.port), |Header(addr)|))
            <==> IsIP(addr.ip) && 0 <= addr.port < 65536
  {
    if IsIP(addr.ip) {
      HeaderPieces(addr);
      var f := PutUint16(addr.port);
      var atyp := if To4(addr.ip).Some? then ATYP_IPV4 else ATYP_IPV6;
      DecodePieces([0, 0], atyp, Canonical(addr.ip), f[0], f[1], payload);
      FitsUint16(addr.port);
    }
  }

  /** What was decoded, in pieces. */
  lemma DecodedPieces(data: Bytes)
    requires Decode(data).Some?
    ensures var (addr, offset) := Decode(data).value;
            && AddrLength(data[3]) == Some(|addr.ip|) && offset >= 2
            && data[..offset] == [data[0], data[1]] + [0, data[3]] + addr.ip + [data[offset - 2], data[offset - 1]]
            && PutUint16(addr.port) == [data[offset - 2], data[offset - 1]]
  {
    var (addr, offset) := Decode(data).value;
    PutUint16Inverts(data[offset - 2], data[offset - 1]);
  }

  /** Of two headers with the same address and port, which are equal. */
  lemma SamePieces(rsv: Bytes, atyp: Byte, ip: Bytes, port: Bytes)
    requires |rsv| == 2
    ensures [0, 0] + [0, atyp] + ip + port == rsv + [0, atyp] + ip + port <==> rsv == [0, 0]
  {
    var a, b := [0, 0] + [0, atyp] + ip + port, rsv + [0, atyp] + ip + port;
    assert a[0] == 0 && a[1] == 0 && b[0] == rsv[0] && b[1] == rsv[1];
  }

  lemma PlainRoundTrip(data: Bytes)
    requires Decode(data).Some? && (data[3] == ATYP_IPV4 || To4(Decode(data).value.0.ip).None?)
    ensures var (addr, offset) := Decode(data).value;
            Header(addr) == data[..offset] <==> data[0] == 0 && data[1] == 0
  {
    var (addr, offset) := Decode(data).value;
    DecodedPieces(data);
    HeaderPieces(addr);
    SamePieces([data[0], data[1]], data[3], addr.ip, PutUint16(addr.port));
  }

  lemma MappedRoundTrip(data: Bytes)
    requires Decode(data).Some? && data[3] != ATYP_IPV4 && To4(Decode(data).value.0.ip).Some?
    ensures var (addr, offset) := Decode(data).value; |Header(addr)| < offset
  {
  }

  /**
  Re-encoding a decoded header reproduces the bytes it was decoded from exactly when they had zero RSV and did not
  carry an IPv4 address in its 16-byte form.
  */
  lemma DecodeRoundTrip(data: Bytes)
    requires Decode(data).Some?
    ensures var (addr, offset) := Decode(data).value;
            Header(addr) == data[..offset]
            <==> data[0] == 0 && data[1] == 0 && (data[3] == ATYP_IPV4 || To4(addr.ip).None?)
  {
    var (addr, offset) := Decode(data).value;
    if data[3] == ATYP_IPV4 || To4(addr.ip).None? {
      PlainRoundTrip(data);
    } else {
      MappedRoundTrip(data);
      assert |data[..offset]| == offset;
    }
  }

  // ----- On the wire

  /** An IPv4 address and its IPv4-mapped form are the same address; otherwise only equal bytes are. */
  lemma SameIPMeans(a: Bytes, b: Bytes)
    ensures SameIP(a, b) <==>
            || a == b
            || (|a| == 4 && b == [0, 0, 0, 0, 0, 0, 0, 0, 0, 0, 255, 255] + a)
            || (|b| == 4 && a == [0, 0, 0, 0, 0, 0, 0, 0, 0, 0, 255, 255] + b)
  {
  }

  /** Type and bytes of an address: an IPv4 address, also in its mapped form, goes in 4 bytes. */
  function OnWire(ip: Bytes): Bytes
    requires IsIP(ip)
  {
    if |ip| == 4 then [1] + ip
    else if ip[..12] == [0, 0, 0, 0, 0, 0, 0, 0, 0, 0, 255, 255] then [1] + ip[12..]
    else [4] + ip
  }

  lemma AddrOnWire(ip: Bytes)
    requires IsIP(ip)
    ensures AddrBytes(ip) == OnWire(ip)
  {
  }

  /** The bytes of a header. */
  lemma HeaderBytes(ip: Bytes, hi: Byte, lo: Byte)
    requires IsIP(ip)
    ensures Header(UDPAddr(ip, 256 * hi + lo)) == [0, 0, 0] + OnWire(ip) + [hi, lo]
  {
    AddrOnWire(ip);
    PutUint16Inverts(hi, lo);
  }

  /** What a header of either form says: address, port, and where the payload starts. */
  predicate Says(data: Bytes, addr: UDPAddr, offset: nat) {
    && |data| >= 4 && data[2] == 0
    && (|| (data[3] == 1 && |data| >= offset == 10 && addr == UDPAddr(data[4..8], 256 * (data[8] as int) + data[9]))
        || (data[3] == 4 && |data| >= offset == 22 && addr == UDPAddr(data[4..20], 256 * (data[20] as int) + data[21])))
  }

  /** Decoding succeeds exactly on unfragmented datagrams with a whole IPv4 or IPv6 header, and returns what it says. */
  lemma DecodeExactly(data: Bytes, addr: UDPAddr, offset: nat)
    ensures Decode(data) == Some((addr, offset)) <==> Says(data, addr, offset)
  {
  }
}
