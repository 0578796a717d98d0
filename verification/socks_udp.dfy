/** The SOCKS5 UDP request header of section 7 of RFC 1928: `parseSOCKS5UDPRequest`,
    `buildSOCKS5UDPResponse` and `buildSOCKS5UDPResponseFromTarget`. A target is the pair (host, port);
    printing and parsing of IP addresses are the parameters `text` (`net.IP.String`) and `parse`
    (`net.ParseIP`, which yields 16 bytes). */
module SocksUdp {
  import opened Frames
  import opened Options

  datatype Packet = Packet(atyp: Byte, host: Bytes, port: nat, payload: Bytes)

  datatype Error =
    | TooShort | BadReserved | Fragmented | BadIPv4 | NoDomainLength | BadDomain | BadIPv6
    | UnsupportedAtyp | MissingPort

  datatype Result = Ok(packet: Packet) | Err(error: Error)

  const IPV4: Byte := 1
  const DOMAIN: Byte := 3
  const IPV6: Byte := 4

  // ---- addresses ------------------------------------------------------------------------

  function Zeros(n: nat): Bytes {
    seq(n, _ => 0)
  }

  /** `net.IP.To4`. */
  function To4(ip: Bytes): (r: Option<Bytes>)
    ensures r.Some? ==> |r.value| == 4
  {
    if |ip| == 4 then Some(ip)
    else if |ip| == 16 && ip[..12] == Zeros(10) + [255, 255] then Some(ip[12..])
    else None
  }

  /** The address without its IPv4-in-IPv6 wrapping. */
  function Unmap(ip: Bytes): Bytes {
    if To4(ip).Some? then To4(ip).value else ip
  }

  predicate IsIp(ip: Bytes) {
    |ip| == 4 || |ip| == 16
  }

  /** Printing then parsing an address gives it back, up to IPv4-in-IPv6 wrapping, and an address and
      its unwrapped form print alike. */
  ghost predicate TextLaws(text: Bytes -> Bytes, parse: Bytes -> Option<Bytes>) {
    && (forall ip :: IsIp(ip) ==> parse(text(ip)).Some? && Unmap(parse(text(ip)).value) == Unmap(ip))
    && (forall ip :: IsIp(ip) ==> text(ip) == text(Unmap(ip)))
    && (forall h :: parse(h).Some? ==> |parse(h).value| == 16)
  }

  // ---- parsing --------------------------------------------------------------------------

  /** The port and payload that follow the address, from `offset` on. */
  function Tail(data: Bytes, offset: nat, atyp: Byte, host: Bytes): Result
    requires offset <= |data|
  {
    if |data| < offset + 2 then Err(MissingPort) else
      Ok(Packet(atyp, host, data[offset] as int * 256 + data[offset + 1] as int, data[offset + 2..]))
  }

  function Parse(data: Bytes, text: Bytes -> Bytes): Result {
    if |data| < 4 then Err(TooShort)
    else if data[0] != 0 || data[1] != 0 then Err(BadReserved)
    else if data[2] != 0 then Err(Fragmented)
    else if data[3] == IPV4 then
      if |data| < 8 then Err(BadIPv4) else Tail(data, 8, IPV4, text(data[4..8]))
    else if data[3] == DOMAIN then
      if |data| < 5 then Err(NoDomainLength) else
        var length := data[4] as int;
        if |data| < 5 + length then Err(BadDomain) else Tail(data, 5 + length, DOMAIN, data[5..5 + length])
    else if data[3] == IPV6 then
      if |data| < 20 then Err(BadIPv6) else Tail(data, 20, IPV6, text(data[4..20]))
    else Err(UnsupportedAtyp)
  }

  /** Length of the address field, when the header announces a supported one: 1 is IPv4, 3 a domain name after
      its length and 4 is IPv6. */
  function AddressLength(data: Bytes): Option<nat> {
    if |data| < 5 then None
    else match data[3]
      case 1 => Some(4)
      case 3 => Some(1 + data[4] as int)
      case 4 => Some(16)
      case _ => None
  }

  /** A datagram is accepted exactly when it is unfragmented, has zero reserved bytes and a supported
      address type, and is long enough for the address it announces and a port. */
  lemma AcceptedIffWellFormed(data: Bytes, text: Bytes -> Bytes)
    ensures Parse(data, text).Ok? <==>
              && |data| >= 5 && data[..3] == [0, 0, 0]
              && AddressLength(data).Some?
              && |data| >= 4 + AddressLength(data).value + 2
    ensures Parse(data, text).Ok? ==>
              var p := Parse(data, text).packet;
              var n := 4 + AddressLength(data).value;
              && p.atyp == data[3] && p.payload == data[n + 2..]
              && p.port == 256 * data[n] as int + data[n + 1] as int
              && p.host == (if data[3] == 3 then data[5..n] else text(data[4..n]))
  {
    if |data| >= 3 {
      assert data[..3] == [data[0], data[1], data[2]];
    }
  }

  /** The bytes of a port that two bytes spell are those two bytes. */
  lemma PortOfBytes(data: Bytes, n: nat)
    requires n + 2 <= |data|
    ensures var port := 256 * data[n] as int + data[n + 1] as int; port < 65536 && PortBytes(port) == data[n..n + 2]
  {
    assert data[n..n + 2] == [data[n], data[n + 1]];
    assert (data[n] as int * 256 + data[n + 1] as int) / 256 == data[n] as int;
  }

  /** A built datagram starts with three zero bytes and the address type, and ends with the address, the port in
      two bytes, the high one first, and the payload. */
  lemma DatagramBytes(atyp: Byte, address: Bytes, port: nat, payload: Bytes)
    requires port < 65536
    ensures var d, n := Datagram(atyp, address, port, payload), 4 + |address|;
            && |d| == n + 2 + |payload| && d[..3] == [0, 0, 0] && d[3] == atyp && d[4..n] == address
            && 256 * d[n] as int + d[n + 1] as int == port && d[n + 2..] == payload
  {
    var d, n := Datagram(atyp, address, port, payload), 4 + |address|;
    assert d[..3] == [0, 0, 0] && d[4..n] == address && d[n + 2..] == payload;
    assert d[n] == PortBytes(port)[0] && d[n + 1] == PortBytes(port)[1];
  }

  // ---- building -------------------------------------------------------------------------

  /** `byte(port>>8), byte(port)`. */
  function PortBytes(port: nat): Bytes {
    [((port / 256) % 256) as Byte, (port % 256) as Byte]
  }

  function Datagram(atyp: Byte, address: Bytes, port: nat, payload: Bytes): Bytes {
    [0, 0, 0, atyp] + address + PortBytes(port) + payload
  }

  /** `buildSOCKS5UDPResponse`; an address of any other length gives no datagram. */
  function Build(ip: Bytes, port: nat, payload: Bytes): Option<Bytes> {
    if To4(ip).Some? then Some(Datagram(IPV4, To4(ip).value, port, payload))
    else if |ip| == 16 then Some(Datagram(IPV6, ip, port, payload))
    else None
  }

  /** `buildSOCKS5UDPResponseFromTarget`. */
  function BuildFromTarget(host: Bytes, port: int, payload: Bytes, parse: Bytes -> Option<Bytes>): Option<Bytes> {
    if port < 0 || port > 65535 then None
    else if parse(host).Some? then Build(parse(host).value, port, payload)
    else if |host| > 255 then None
    else Some(Datagram(DOMAIN, [|host| as Byte] + host, port, payload))
  }

  // ---- round trips ----------------------------------------------------------------------

  lemma ParseDatagram(atyp: Byte, address: Bytes, port: nat, payload: Bytes, text: Bytes -> Bytes)
    requires port < 65536
    requires || (atyp == IPV4 && |address| == 4) || (atyp == IPV6 && |address| == 16)
             || (atyp == DOMAIN && |address| > 0 && |address| == 1 + address[0] as int)
    ensures Parse(Datagram(atyp, address, port, payload), text)
         == Ok(Packet(atyp, if atyp == DOMAIN then address[1..] else text(address), port, payload))
  {
    var d := Datagram(atyp, address, port, payload);
    var n := 4 + |address|;
    assert d[4..n] == address;
    assert atyp == DOMAIN ==> d[4] == address[0] && d[5..n] == address[1..];
    assert d[n..n + 2] == PortBytes(port);
    assert d[n] == PortBytes(port)[0] && d[n + 1] == PortBytes(port)[1];
    assert d[n + 2..] == payload;
    assert port / 256 * 256 + port % 256 == port;
  }

  /** Parsing a response built for a peer address gives the unwrapped address, the port and the payload. */
  lemma ParseOfBuild(ip: Bytes, port: nat, payload: Bytes, text: Bytes -> Bytes)
    requires IsIp(ip) && port < 65536
    ensures Build(ip, port, payload).Some?
    ensures Parse(Build(ip, port, payload).value, text)
         == Ok(Packet(if To4(ip).Some? then 1 else 4, text(Unmap(ip)), port, payload))
  {
    if To4(ip).Some? {
      ParseDatagram(IPV4, To4(ip).value, port, payload, text);
    } else {
      ParseDatagram(IPV6, ip, port, payload, text);
    }
  }

  /** Parsing a response built for a target gives the target's own text back: the unwrapped address, or
      the domain name of at most 255 bytes. */
  lemma ParseOfBuildFromTarget(host: Bytes, port: int, payload: Bytes, text: Bytes -> Bytes,
                               parse: Bytes -> Option<Bytes>)
    requires TextLaws(text, parse)
    ensures BuildFromTarget(host, port, payload, parse).Some? <==>
              0 <= port <= 65535 && (parse(host).Some? || |host| <= 255)
    ensures BuildFromTarget(host, port, payload, parse).Some? ==>
              var r := Parse(BuildFromTarget(host, port, payload, parse).value, text);
              && r.Ok? && r.packet.port == port && r.packet.payload == payload
              && r.packet.host == (if parse(host).Some? then text(Unmap(parse(host).value)) else host)
              && (r.packet.atyp == 3 <==> parse(host).None?)
  {
    if 0 <= port <= 65535 {
      if parse(host).Some? {
        ParseOfBuild(parse(host).value, port, payload, text);
      } else if |host| <= 255 {
        var address := [|host| as Byte] + host;
        assert address[1..] == host;
        ParseDatagram(DOMAIN, address, port, payload, text);
      }
    }
  }

  /** The form this codec itself writes: no wrapped IPv4 address, no IP address spelled as a domain. */
  ghost predicate Canonical(data: Bytes, parse: Bytes -> Option<Bytes>)
    requires |data| >= 5 && AddressLength(data).Some? && |data| >= 4 + AddressLength(data).value
  {
    match data[3]
    case 1 => true
    case 4 => To4(data[4..20]).None?
    case _ => parse(data[5..4 + AddressLength(data).value]).None?
  }

  /** Rebuilding a parsed datagram gives the same bytes if and only if the datagram is canonical. */
  lemma RebuildIffCanonical(data: Bytes, text: Bytes -> Bytes, parse: Bytes -> Option<Bytes>)
    requires TextLaws(text, parse) && Parse(data, text).Ok?
    ensures |data| >= 5 && AddressLength(data).Some? && |data| >= 4 + AddressLength(data).value
    ensures var p := Parse(data, text).packet;
            BuildFromTarget(p.host, p.port, p.payload, parse) == Some(data) <==> Canonical(data, parse)
  {
    AcceptedIffWellFormed(data, text);
    var p := Parse(data, text).packet;
    var n := 4 + AddressLength(data).value;
    PortOfBytes(data, n);
    SplitsAs(data, n, p.port, p.payload);
    if data[3] == DOMAIN {
      assert data[4..n] == [data[4]] + data[5..n];
      assert data[4] == |p.host| as Byte;
    } else {
      var ip := data[4..n];
      assert IsIp(ip) && p.host == text(ip);
      assert parse(text(ip)).Some? && Unmap(parse(text(ip)).value) == Unmap(ip);
    }
  }

  lemma SplitsAs(data: Bytes, n: nat, port: nat, payload: Bytes)
    requires 4 <= n <= |data| - 2 && data[..3] == [0, 0, 0]
    requires PortBytes(port) == data[n..n + 2] && payload == data[n + 2..]
    ensures data == Datagram(data[3], data[4..n], port, payload)
  {
    assert data[..4] == data[..3] + [data[3]];
    assert data == data[..4] + data[4..n] + data[n..n + 2] + data[n + 2..];
  }
}
