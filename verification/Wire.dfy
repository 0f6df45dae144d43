/** Link-layer and IP header parsing, frame building and the replay of a captured packet. */
module Wire {
  import opened Net

  const DLT_EN10MB := 1
  const DLT_LINUX_SLL := 113
  const ARPHRD_ETHER := 1
  const ARPHRD_LOOPBACK := 772
  const ETHERTYPE_IP := 0x0800
  const ETHERTYPE_VLAN := 0x8100
  const ETHERTYPE_IPV6 := 0x86DD

  datatype LinkLayer = LinkLayer(headerLength: nat, source: Mac, payload: nat)

  datatype IpHeader = IpHeader(version: Family, headerLength: nat, source: IpAddress, destination: IpAddress, protocol: Byte)

  datatype Headers = Headers(link: Option<LinkLayer>, ip: Option<IpHeader>)

  datatype Failure = NotEnoughData | UnsupportedDevice | InvalidAddressSize

  datatype Parsed<+T> = Ok(value: T) | Throws(failure: Failure)

  function EtherType(v: Family): nat {
    if v.IPv4? then ETHERTYPE_IP else ETHERTYPE_IPV6
  }

  function U16(d: Bytes, at: nat): nat
    requires at + 2 <= |d|
  {
    var (high: int, low: int) := (d[at], d[at + 1]);
    high * 256 + low
  }

  // ---------------------------------------------------------------------------
  // What each parser reads, by offset

  function Sll(d: Bytes): Parsed<LinkLayer> {
    if |d| < 16 then Throws(NotEnoughData)
    else if U16(d, 2) != ARPHRD_ETHER && U16(d, 2) != ARPHRD_LOOPBACK then Throws(UnsupportedDevice)
    else if U16(d, 4) != 6 then Throws(InvalidAddressSize)
    else Ok(LinkLayer(16, d[6..12], U16(d, 14)))
  }

  function Ethernet(d: Bytes): Parsed<LinkLayer> {
    if |d| < 14 then Throws(NotEnoughData) else Ok(LinkLayer(14, d[6..12], U16(d, 12)))
  }

  function Vlan(d: Bytes): Parsed<LinkLayer> {
    if |d| < 4 then Throws(NotEnoughData) else Ok(LinkLayer(4, [0, 0, 0, 0, 0, 0], U16(d, 2)))
  }

  function Link(kind: int, d: Bytes): Parsed<Option<LinkLayer>> {
    if kind == DLT_LINUX_SLL then Lift(Sll(d))
    else if kind == DLT_EN10MB then Lift(Ethernet(d))
    else if kind == ETHERTYPE_VLAN then Lift(Vlan(d))
    else Ok(None)
  }

  function Lift<T>(p: Parsed<T>): Parsed<Option<T>> {
    if p.Ok? then Ok(Some(p.value)) else Throws(p.failure)
  }

  function Ip4(d: Bytes): Parsed<IpHeader> {
    if |d| < 20 then Throws(NotEnoughData)
    else Ok(IpHeader(IPv4, d[0] % 16 * 4, IpAddress(Ip(IPv4, d[12..16]), 32), IpAddress(Ip(IPv4, d[16..20]), 32), d[9]))
  }

  function Ip6(d: Bytes): Parsed<IpHeader> {
    if |d| < 40 then Throws(NotEnoughData)
    else Ok(IpHeader(IPv6, 40, IpAddress(Ip(IPv6, d[8..24]), 128), IpAddress(Ip(IPv6, d[24..40]), 128), d[6]))
  }

  /**
   * `parse_ip` looks at the first byte before it checks that there is one; `stray` is the byte that
   * it reads behind the end of an exhausted packet.
   */
  function IpLayer(kind: int, d: Bytes, stray: Byte): Parsed<Option<IpHeader>> {
    var version := (if d == [] then stray else d[0]) / 16;
    if (kind == ETHERTYPE_IP && version != 4) || (kind == ETHERTYPE_IPV6 && version != 6) then Ok(None)
    else if kind == ETHERTYPE_IP then Lift(Ip4(d))
    else if kind == ETHERTYPE_IPV6 then Lift(Ip6(d))
    else Ok(None)
  }

  /** The bytes behind the link header and at most one VLAN tag, and their protocol. */
  function Unwrap(l: LinkLayer, d: Bytes): Parsed<(Bytes, nat)>
    requires l.headerLength <= |d|
  {
    var rest := d[l.headerLength..];
    if l.payload != ETHERTYPE_VLAN then Ok((rest, l.payload))
    else if |rest| < 4 then Throws(NotEnoughData)
    else Ok((rest[4..], U16(rest, 2)))
  }

  function HeadersOf(kind: int, d: Bytes, stray: Byte): Parsed<Headers> {
    match Link(kind, d)
    case Throws(f) => Throws(f)
    case Ok(None) => Ok(Headers(None, None))
    case Ok(Some(l)) => (
      match Unwrap(l, d)
      case Throws(f) => Throws(f)
      case Ok((rest, payload)) => (
        match IpLayer(payload, rest, stray)
        case Throws(f) => Throws(f)
        case Ok(ip) => Ok(Headers(Some(l), ip))))
  }

  /** Exactly when a link header is refused: too few bytes, or a cooked header of another device type or address size. */
  lemma LinkThrowsIff(kind: int, d: Bytes)
    ensures Link(kind, d) == Throws(NotEnoughData) <==>
              (kind == 113 && |d| < 16) || (kind == 1 && |d| < 14) || (kind == 0x8100 && |d| < 4)
    ensures Link(kind, d) == Throws(UnsupportedDevice) <==>
              kind == 113 && |d| >= 16 && d[2..4] != [0x00, 0x01] && d[2..4] != [0x03, 0x04]
    ensures Link(kind, d) == Throws(InvalidAddressSize) <==>
              kind == 113 && |d| >= 16 && (d[2..4] == [0x00, 0x01] || d[2..4] == [0x03, 0x04]) && d[4..6] != [0x00, 0x06]
    ensures Link(kind, d) == Ok(None) <==> kind != 113 && kind != 1 && kind != 0x8100
  {
    if kind == 113 && |d| >= 16 {
      PairIs(d, 2, 0x00, 0x01);
      PairIs(d, 2, 0x03, 0x04);
      PairIs(d, 4, 0x00, 0x06);
    }
  }

  lemma PairIs(d: Bytes, at: nat, high: Byte, low: Byte)
    requires at + 2 <= |d|
    ensures d[at..at + 2] == [high, low] <==> U16(d, at) == high * 256 + low
  {
    var (h: int, l: int) := (d[at], d[at + 1]);
    assert d[at..at + 2] == [h, l];
  }

  /** Exactly when an IP header is refused: the version fits the ethertype and the bytes do not suffice. */
  lemma IpThrowsIff(kind: int, d: Bytes, stray: Byte)
    ensures IpLayer(kind, d, stray).Throws? <==>
              var first := if d == [] then stray else d[0];
              (kind == 0x0800 && first / 16 == 4 && |d| < 20) || (kind == 0x86DD && first / 16 == 6 && |d| < 40)
    ensures IpLayer(kind, d, stray).Throws? ==> IpLayer(kind, d, stray).failure == NotEnoughData
  {
  }

  // ---------------------------------------------------------------------------
  // The parsers themselves, moving a cursor through the packet

  method ParseLinuxCookedCapture(packet: Bytes, start: nat) returns (r: Parsed<LinkLayer>)
    requires start <= |packet|
    ensures r == Sll(packet[start..])
  {
    if |packet| - start < 16 { return Throws(NotEnoughData); }
    var data := start + 2;
    var deviceType := U16(packet, data);
    if deviceType != ARPHRD_ETHER && deviceType != ARPHRD_LOOPBACK { return Throws(UnsupportedDevice); }
    data := data + 2;
    var addressLength := U16(packet, data);
    if addressLength != 6 { return Throws(InvalidAddressSize); }
    data := data + 2;
    var source := packet[data..data + 6];
    assert source == packet[start..][6..12];
    data := data + 8;
    return Ok(LinkLayer(16, source, U16(packet, data)));
  }

  method ParseEthernet(packet: Bytes, start: nat) returns (r: Parsed<LinkLayer>)
    requires start <= |packet|
    ensures r == Ethernet(packet[start..])
  {
    if |packet| - start < 14 { return Throws(NotEnoughData); }
    var data := start + 6;
    var source := packet[data..data + 6];
    assert source == packet[start..][6..12];
    data := data + 6;
    return Ok(LinkLayer(14, source, U16(packet, data)));
  }

  method ParseVlanHeader(packet: Bytes, start: nat) returns (r: Parsed<LinkLayer>)
    requires start <= |packet|
    ensures r == Vlan(packet[start..])
  {
    if |packet| - start < 4 { return Throws(NotEnoughData); }
    var data := start + 2;
    return Ok(LinkLayer(4, [0, 0, 0, 0, 0, 0], U16(packet, data)));
  }

  method ParseLinkLayer(kind: int, packet: Bytes, start: nat) returns (r: Parsed<Option<LinkLayer>>)
    requires start <= |packet|
    ensures r == Link(kind, packet[start..])
  {
    var p;
    if kind == DLT_LINUX_SLL { p := ParseLinuxCookedCapture(packet, start); }
    else if kind == DLT_EN10MB { p := ParseEthernet(packet, start); }
    else if kind == ETHERTYPE_VLAN { p := ParseVlanHeader(packet, start); }
    else { return Ok(None); }
    return Lift(p);
  }

  method ParseIpv4(packet: Bytes, start: nat) returns (r: Parsed<IpHeader>)
    requires start <= |packet|
    ensures r == Ip4(packet[start..])
  {
    if |packet| - start < 20 { return Throws(NotEnoughData); }
    var data := start;
    var headerLength := packet[data] % 16 * 4;
    data := data + 9;
    var protocol := packet[data];
    data := data + 3;
    var source := packet[data..data + 4];
    data := data + 4;
    var destination := packet[data..data + 4];
    assert source == packet[start..][12..16] && destination == packet[start..][16..20];
    return Ok(IpHeader(IPv4, headerLength, IpAddress(Ip(IPv4, source), 32), IpAddress(Ip(IPv4, destination), 32), protocol));
  }

  method ParseIpv6(packet: Bytes, start: nat) returns (r: Parsed<IpHeader>)
    requires start <= |packet|
    ensures r == Ip6(packet[start..])
  {
    if |packet| - start < 40 { return Throws(NotEnoughData); }
    var data := start + 6;
    var nextHeader := packet[data];
    data := data + 2;
    var source := packet[data..data + 16];
    data := data + 16;
    var destination := packet[data..data + 16];
    assert source == packet[start..][8..24] && destination == packet[start..][24..40];
    return Ok(IpHeader(IPv6, 40, IpAddress(Ip(IPv6, source), 128), IpAddress(Ip(IPv6, destination), 128), nextHeader));
  }

  method ParseIp(kind: int, packet: Bytes, start: nat, stray: Byte) returns (r: Parsed<Option<IpHeader>>)
    requires start <= |packet|
    ensures r == IpLayer(kind, packet[start..], stray)
  {
    var first := if start < |packet| then packet[start] else stray;
    var version := first / 16;
    if (kind == ETHERTYPE_IP && version != 4) || (kind == ETHERTYPE_IPV6 && version != 6) { return Ok(None); }
    var p;
    if kind == ETHERTYPE_IP { p := ParseIpv4(packet, start); }
    else if kind == ETHERTYPE_IPV6 { p := ParseIpv6(packet, start); }
    else { return Ok(None); }
    return Lift(p);
  }

  /** `get_headers`: one cursor over the whole packet; it reads what `HeadersOf` describes by offset. */
  method GetHeaders(kind: int, packet: Bytes, stray: Byte) returns (r: Parsed<Headers>)
    ensures r == HeadersOf(kind, packet, stray)
  {
    var data := 0;
    assert packet[0..] == packet;
    var link := ParseLinkLayer(kind, packet, data);
    if link.Throws? { return Throws(link.failure); }
    if link.value.None? { return Ok(Headers(None, None)); }
    var l := link.value.value;
    data := data + l.headerLength;
    var payload := l.payload;
    if payload == ETHERTYPE_VLAN {
      var tag := ParseLinkLayer(payload, packet, data);
      if tag.Throws? { return Throws(tag.failure); }
      payload := tag.value.value.payload;
      assert packet[data..][4..] == packet[data + 4..];
      data := data + tag.value.value.headerLength;
    }
    var ip := ParseIp(payload, packet, data, stray);
    if ip.Throws? { return Throws(ip.failure); }
    return Ok(Headers(Some(l), ip.value));
  }

  // ---------------------------------------------------------------------------
  // Parsing inverts encoding

  datatype LinkHeader =
    | SllHeader(packetType: Bytes, loopback: bool, source: Mac, padding: Bytes)
    | EthernetHeader(destination: Mac, source: Mac)

  datatype IpPacket =
    | V4(lengthWords: nat, upToTtl: Bytes, protocol: Byte, checksum: Bytes, source: Bytes, destination: Bytes, options: Bytes)
    | V6(trafficClass: nat, flowAndLength: Bytes, nextHeader: Byte, hopLimit: Byte, source: Bytes, destination: Bytes)

  /** A frame on the wire: link header, at most one VLAN tag (its two control bytes), IP header, the rest. */
  datatype Frame = Frame(link: LinkHeader, tag: Option<(Byte, Byte)>, ip: IpPacket, payload: Bytes)

  predicate ValidLink(l: LinkHeader) {
    l.SllHeader? ==> |l.packetType| == 2 && |l.padding| == 2
  }

  predicate ValidIp(p: IpPacket) {
    match p
    case V4(w, u, _, c, s, d, o) => 5 <= w < 16 && |u| == 8 && |c| == 2 && |s| == 4 && |d| == 4 && |o| == 4 * (w - 5)
    case V6(t, f, _, _, s, d) => t < 16 && |f| == 5 && |s| == 16 && |d| == 16
  }

  function Big16(v: nat): Bytes
    requires v < 65536
  {
    [v / 256, v % 256]
  }

  function EncodeLink(l: LinkHeader, payload: nat): Bytes
    requires payload < 65536
  {
    match l
    case SllHeader(t, loopback, source, padding) =>
      t + (if loopback then [0x03, 0x04] else [0x00, 0x01]) + [0x00, 0x06] + source + padding + Big16(payload)
    case EthernetHeader(destination, source) => destination + source + Big16(payload)
  }

  function EncodeIp(p: IpPacket): Bytes
    requires ValidIp(p)
  {
    match p
    case V4(w, u, protocol, c, s, d, o) => Ip4Front(w, u, protocol, c) + s + d + o
    case V6(t, f, next, hop, s, d) => [96 + t] + f + [next, hop] + s + d
  }

  function VersionOf(p: IpPacket): Family {
    if p.V4? then IPv4 else IPv6
  }

  /** The assigned protocol number of an IP version. */
  function Announces(p: IpPacket): nat {
    if p.V4? then 0x0800 else 0x86DD
  }

  function TagBytes(f: Frame): Bytes {
    if f.tag.None? then [] else [f.tag.value.0, f.tag.value.1] + Big16(Announces(f.ip))
  }

  function LinkPayload(f: Frame): nat {
    if f.tag.None? then Announces(f.ip) else 0x8100
  }

  function Encode(f: Frame): Bytes
    requires ValidLink(f.link) && ValidIp(f.ip)
  {
    EncodeLink(f.link, LinkPayload(f)) + (TagBytes(f) + (EncodeIp(f.ip) + f.payload))
  }

  /** The link type number of libpcap. */
  function KindOf(l: LinkHeader): int {
    if l.SllHeader? then 113 else 1
  }

  function LinkSize(l: LinkHeader): nat {
    if l.SllHeader? then 16 else 14
  }

  function ExpectedIp(p: IpPacket): IpHeader {
    var subnet := if p.V4? then 32 else 128;
    IpHeader(VersionOf(p), if p.V4? then 4 * p.lengthWords else 40,
             IpAddress(Ip(VersionOf(p), p.source), subnet), IpAddress(Ip(VersionOf(p), p.destination), subnet),
             if p.V4? then p.protocol else p.nextHeader)
  }

  lemma LinkParses(l: LinkHeader, payload: nat, rest: Bytes)
    requires ValidLink(l) && payload < 65536
    ensures Link(KindOf(l), EncodeLink(l, payload) + rest) == Ok(Some(LinkLayer(LinkSize(l), l.source, payload)))
    ensures |EncodeLink(l, payload)| == LinkSize(l)
  {
    var d := EncodeLink(l, payload) + rest;
    assert d[6..12] == l.source;
    assert U16(d, LinkSize(l) - 2) == payload;
    if l.SllHeader? {
      assert U16(d, 2) == (if l.loopback then ARPHRD_LOOPBACK else ARPHRD_ETHER) && U16(d, 4) == 6;
    }
  }

  lemma Ip4Fields(front: Bytes, source: Bytes, destination: Bytes, tail: Bytes)
    requires |front| == 12 && |source| == |destination| == 4
    ensures Ip4(front + source + destination + tail) ==
            Ok(IpHeader(IPv4, front[0] % 16 * 4, IpAddress(Ip(IPv4, source), 32), IpAddress(Ip(IPv4, destination), 32), front[9]))
  {
    var d := front + source + destination + tail;
    assert d[0] == front[0] && d[9] == front[9];
    assert d[12..16] == source && d[16..20] == destination;
  }

  /** The twelve bytes in front of the addresses. */
  function Ip4Front(w: nat, upToTtl: Bytes, protocol: Byte, checksum: Bytes): Bytes
    requires 5 <= w < 16
  {
    [64 + w] + upToTtl + [protocol] + checksum
  }

  lemma Ip4FrontFields(w: nat, upToTtl: Bytes, protocol: Byte, checksum: Bytes)
    requires 5 <= w < 16 && |upToTtl| == 8 && |checksum| == 2
    ensures var front := Ip4Front(w, upToTtl, protocol, checksum);
      |front| == 12 && front[0] == 64 + w && front[9] == protocol
  {
  }

  lemma Regrouped(a: Bytes, b: Bytes, c: Bytes, d: Bytes, e: Bytes)
    ensures a + b + c + d + e == a + b + c + (d + e)
  {
  }

  lemma Ip4Parses(p: IpPacket, rest: Bytes)
    requires ValidIp(p) && p.V4?
    ensures Ip4(EncodeIp(p) + rest) == Ok(ExpectedIp(p)) && EncodeIp(p)[0] / 16 == 4
  {
    var front := Ip4Front(p.lengthWords, p.upToTtl, p.protocol, p.checksum);
    Ip4FrontFields(p.lengthWords, p.upToTtl, p.protocol, p.checksum);
    Regrouped(front, p.source, p.destination, p.options, rest);
    Ip4Fields(front, p.source, p.destination, p.options + rest);
  }

  lemma Ip6Parses(p: IpPacket, rest: Bytes)
    requires ValidIp(p) && p.V6?
    ensures Ip6(EncodeIp(p) + rest) == Ok(ExpectedIp(p)) && EncodeIp(p)[0] / 16 == 6
  {
    var d := EncodeIp(p) + rest;
    assert d[0] == 96 + p.trafficClass && d[6] == p.nextHeader;
    assert d[8..24] == p.source && d[24..40] == p.destination;
  }

  lemma IpParses(p: IpPacket, rest: Bytes, stray: Byte)
    requires ValidIp(p)
    ensures IpLayer(Announces(p), EncodeIp(p) + rest, stray) == Ok(Some(ExpectedIp(p)))
  {
    if p.V4? { Ip4Parses(p, rest); } else { Ip6Parses(p, rest); }
    assert (EncodeIp(p) + rest)[0] == EncodeIp(p)[0];
  }

  /** `get_headers` gives back exactly the encoded fields of every frame, whatever follows the headers. */
  lemma ParsingInvertsEncoding(f: Frame, stray: Byte)
    requires ValidLink(f.link) && ValidIp(f.ip)
    ensures HeadersOf(KindOf(f.link), Encode(f), stray) ==
            Ok(Headers(Some(LinkLayer(LinkSize(f.link), f.link.source, LinkPayload(f))), Some(ExpectedIp(f.ip))))
  {
    var inner := EncodeIp(f.ip) + f.payload;
    LinkParses(f.link, LinkPayload(f), TagBytes(f) + inner);
    var rest := Encode(f)[LinkSize(f.link)..];
    assert rest == TagBytes(f) + inner;
    if f.tag.Some? {
      assert rest[4..] == inner;
      assert U16(rest, 2) == Announces(f.ip);
    } else {
      assert rest == inner;
    }
    IpParses(f.ip, f.payload, stray);
  }

  /** A packet that ends where its link header or its VLAN tag announces an IP packet. */
  predicate EndsBeforeIp(kind: int, d: Bytes) {
    match Link(kind, d)
    case Throws(_) => false
    case Ok(None) => false
    case Ok(Some(l)) =>
      var u := Unwrap(l, d);
      u.Ok? && u.value.0 == [] && (u.value.1 == ETHERTYPE_IP || u.value.1 == ETHERTYPE_IPV6)
  }

  /** The byte behind the end matters exactly for the packets that end where an IP packet is announced. */
  lemma StrayIrrelevantIff(kind: int, d: Bytes)
    ensures (forall stray: Byte, stray': Byte :: HeadersOf(kind, d, stray) == HeadersOf(kind, d, stray')) <==> !EndsBeforeIp(kind, d)
  {
    if EndsBeforeIp(kind, d) { StrayDecides(kind, d, 0x45, 0x60); }
  }

  /** For those packets it decides between an exception and a missing header. */
  lemma StrayDecides(kind: int, d: Bytes, four: Byte, six: Byte)
    requires EndsBeforeIp(kind, d) && four / 16 == 4 && six / 16 == 6
    ensures HeadersOf(kind, d, four) != HeadersOf(kind, d, six)
    ensures {HeadersOf(kind, d, four), HeadersOf(kind, d, six)} ==
            {Throws(NotEnoughData), Ok(Headers(Link(kind, d).value, None))}
  {
    var l := Link(kind, d).value.value;
    var payload := Unwrap(l, d).value.1;
    if payload == ETHERTYPE_IP {
      assert HeadersOf(kind, d, four) == Throws(NotEnoughData);
    } else {
      assert HeadersOf(kind, d, six) == Throws(NotEnoughData);
    }
  }

  // ---------------------------------------------------------------------------
  // Building and replaying frames

  /** The header that `create_ethernet_header` pushes together. */
  function BuildEthernetHeader(destination: Mac, source: Mac, payload: nat): Bytes
    requires payload < 65536
  {
    EncodeLink(EthernetHeader(destination, source), payload)
  }

  /** `create_ethernet_header`: two addresses, then the ethertype high byte first. */
  method CreateEthernetHeader(destination: Mac, source: Mac, payload: nat) returns (header: Bytes)
    requires payload < 65536
    ensures header == BuildEthernetHeader(destination, source, payload)
  {
    header := destination;
    header := header + source;
    header := header + [payload / 256];
    header := header + [payload % 256];
  }

  datatype Replay = Nothing | Injects(frame: Bytes) | ReplayThrows(failure: Failure) | NullDereference

  /** `replay_data` up to the injection; it trusts that an IP header was found. */
  method ReplayData(data: Bytes, target: Mac, stray: Byte) returns (r: Replay)
    ensures r == Replayed(data, target, stray)
  {
    var headers := GetHeaders(DLT_LINUX_SLL, data, stray);
    if headers.Throws? { return ReplayThrows(headers.failure); }
    if headers.value.link.None? { return Nothing; }
    if headers.value.ip.None? { return NullDereference; }
    var l := headers.value.link.value;
    var payloadType := EtherType(headers.value.ip.value.version);
    var cursor := l.headerLength;
    var frame := CreateEthernetHeader(target, l.source, payloadType);
    return Injects(frame + data[cursor..]);
  }

  function Replayed(data: Bytes, target: Mac, stray: Byte): Replay {
    match HeadersOf(DLT_LINUX_SLL, data, stray)
    case Throws(f) => ReplayThrows(f)
    case Ok(Headers(None, _)) => Nothing
    case Ok(Headers(Some(_), None)) => NullDereference
    case Ok(Headers(Some(l), Some(ip))) =>
      Injects(BuildEthernetHeader(target, l.source, EtherType(ip.version)) + data[l.headerLength..])
  }

  /** Replaying an untagged capture preserves its meaning: same IP header, same sender, same bytes after the link header. */
  lemma ReplayPreservesUntagged(data: Bytes, target: Mac, stray: Byte, stray': Byte, l: LinkLayer, ip: IpHeader)
    requires HeadersOf(DLT_LINUX_SLL, data, stray) == Ok(Headers(Some(l), Some(ip))) && l.payload != ETHERTYPE_VLAN
    ensures var r := Replayed(data, target, stray);
      && r.Injects?
      && HeadersOf(DLT_EN10MB, r.frame, stray') == Ok(Headers(Some(LinkLayer(14, l.source, l.payload)), Some(ip)))
      && r.frame[..6] == target && r.frame[14..] == data[16..]
  {
    var payload := EtherType(ip.version);
    assert l.payload == payload;
    var head := BuildEthernetHeader(target, l.source, payload);
    LinkParses(EthernetHeader(target, l.source), payload, data[16..]);
    assert (head + data[16..])[14..] == data[16..];
    assert (head + data[16..])[..6] == target;
  }

  /**
   * A tagged capture keeps its four tag bytes behind an ethertype that announces IP, so the replayed frame
   * has no IP header any more unless the tag's first nibble happens to be the IP version.
   */
  lemma ReplayOfTagged(data: Bytes, target: Mac, stray: Byte, stray': Byte, l: LinkLayer, ip: IpHeader)
    requires HeadersOf(DLT_LINUX_SLL, data, stray) == Ok(Headers(Some(l), Some(ip))) && l.payload == ETHERTYPE_VLAN
    ensures |data| > 16 && Replayed(data, target, stray).Injects?
    ensures HeadersOf(DLT_EN10MB, Replayed(data, target, stray).frame, stray') ==
            var shifted := IpLayer(EtherType(ip.version), data[16..], stray');
            if shifted.Throws? then Throws(shifted.failure)
            else Ok(Headers(Some(LinkLayer(14, l.source, EtherType(ip.version))), shifted.value))
    ensures var r := HeadersOf(DLT_EN10MB, Replayed(data, target, stray).frame, stray');
      r.Ok? && (r.value.ip.None? <==> data[16] / 16 != if ip.version.IPv4? then 4 else 6)
  {
    var payload := EtherType(ip.version);
    var head := BuildEthernetHeader(target, l.source, payload);
    LinkParses(EthernetHeader(target, l.source), payload, data[16..]);
    assert (head + data[16..])[14..] == data[16..];
  }

  /** A captured tagged packet whose tag bytes and IP header read the same as its IP header. */
  predicate ReadsTheSameShifted(data: Bytes, version: Family)
    requires |data| >= if version.IPv4? then 40 else 60
  {
    if version.IPv4? then
      && data[16] / 16 == 4 && data[16] % 16 == data[20] % 16
      && data[25] == data[29]
      && data[28..32] == data[32..36] == data[36..40]
    else
      && data[16] / 16 == 6
      && data[22] == data[26]
      && data[24..40] == data[28..44] && data[40..56] == data[44..60]
  }

  lemma Shifted4(data: Bytes, stray: Byte, ip: IpHeader)
    requires |data| >= 40 && Ip4(data[20..]) == Ok(ip)
    ensures IpLayer(ETHERTYPE_IP, data[16..], stray) == Ok(Some(ip)) <==> ReadsTheSameShifted(data, IPv4)
    ensures ip.source.pure.bytes == data[32..36] && ip.destination.pure.bytes == data[36..40]
  {
    var (tag, inner) := (data[16..], data[20..]);
    assert tag[12..16] == data[28..32] && tag[16..20] == data[32..36];
    assert inner[12..16] == data[32..36] && inner[16..20] == data[36..40];
  }

  lemma Shifted6(data: Bytes, stray: Byte, ip: IpHeader)
    requires |data| >= 60 && Ip6(data[20..]) == Ok(ip)
    ensures IpLayer(ETHERTYPE_IPV6, data[16..], stray) == Ok(Some(ip)) <==> ReadsTheSameShifted(data, IPv6)
  {
    var (tag, inner) := (data[16..], data[20..]);
    assert tag[8..24] == data[24..40] && tag[24..40] == data[40..56];
    assert inner[8..24] == data[28..44] && inner[24..40] == data[44..60];
  }

  lemma TaggedFields(data: Bytes, stray: Byte, l: LinkLayer, ip: IpHeader)
    requires HeadersOf(DLT_LINUX_SLL, data, stray) == Ok(Headers(Some(l), Some(ip))) && l.payload == ETHERTYPE_VLAN
    ensures |data| >= 20 && (if ip.version.IPv4? then Ip4(data[20..]) else Ip6(data[20..])) == Ok(ip)
  {
    assert data[16..][4..] == data[20..];
  }

  /** A tagged capture keeps its IP header in the replayed frame exactly when these bytes of it agree. */
  lemma TaggedKeepsHeaderIff(data: Bytes, target: Mac, stray: Byte, stray': Byte, l: LinkLayer, ip: IpHeader)
    requires HeadersOf(DLT_LINUX_SLL, data, stray) == Ok(Headers(Some(l), Some(ip))) && l.payload == ETHERTYPE_VLAN
    ensures Replayed(data, target, stray).Injects? && |data| >= if ip.version.IPv4? then 40 else 60
    ensures var r := HeadersOf(DLT_EN10MB, Replayed(data, target, stray).frame, stray');
      && r.Ok? && (r.value.ip == Some(ip) <==> ReadsTheSameShifted(data, ip.version))
      && (r.value.ip == Some(ip) && ip.version.IPv4? ==> ip.source == ip.destination)
  {
    ReplayOfTagged(data, target, stray, stray', l, ip);
    TaggedFields(data, stray, l, ip);
    if ip.version.IPv4? { Shifted4(data, stray', ip); } else { Shifted6(data, stray', ip); }
  }

  /** Replay keeps the IP header of a capture exactly when it has no tag, or a tag and a header that read the same shifted. */
  lemma ReplayKeepsHeaderIff(data: Bytes, target: Mac, stray: Byte, stray': Byte, l: LinkLayer, ip: IpHeader)
    requires HeadersOf(DLT_LINUX_SLL, data, stray) == Ok(Headers(Some(l), Some(ip)))
    ensures Replayed(data, target, stray).Injects? && |data| >= if ip.version.IPv4? then 36 else 56
    ensures var r := HeadersOf(DLT_EN10MB, Replayed(data, target, stray).frame, stray');
      r.Ok? && (r.value.ip == Some(ip) <==>
        (l.payload == ETHERTYPE_VLAN ==> |data| >= (if ip.version.IPv4? then 40 else 60) && ReadsTheSameShifted(data, ip.version)))
  {
    if l.payload == ETHERTYPE_VLAN {
      TaggedKeepsHeaderIff(data, target, stray, stray', l, ip);
    } else {
      ReplayPreservesUntagged(data, target, stray, stray', l, ip);
    }
  }

  /** A SYN from 10.0.0.1 to 10.0.0.2 on the VLAN with the given tag. */
  function TaggedFrame(tag: (Byte, Byte)): Frame {
    Frame(SllHeader([0, 0], false, [2, 0, 0, 0, 0, 1], [0, 0]), Some(tag),
          V4(5, [0, 0, 40, 0, 0, 64, 0, 64], 6, [0, 0], [10, 0, 0, 1], [10, 0, 0, 2], []), [])
  }

  /** Whatever its tag, that frame is parsed when captured and has lost its IP header when replayed. */
  lemma TaggedFrameIsLost(tag: (Byte, Byte), target: Mac, stray: Byte, stray': Byte)
    ensures var f := TaggedFrame(tag);
      && ValidLink(f.link) && ValidIp(f.ip)
      && HeadersOf(DLT_LINUX_SLL, Encode(f), stray).Ok?
      && HeadersOf(DLT_LINUX_SLL, Encode(f), stray).value.ip == Some(ExpectedIp(f.ip))
      && Replayed(Encode(f), target, stray).Injects?
      && var r := HeadersOf(DLT_EN10MB, Replayed(Encode(f), target, stray).frame, stray');
         r.Ok? && r.value.ip != Some(ExpectedIp(f.ip))
  {
    var f := TaggedFrame(tag);
    ParsingInvertsEncoding(f, stray);
    var l := LinkLayer(16, f.link.source, ETHERTYPE_VLAN);
    TaggedKeepsHeaderIff(Encode(f), target, stray, stray', l, ExpectedIp(f.ip));
    assert [10, 0, 0, 1][3] != [10, 0, 0, 2][3];
  }

  // ---------------------------------------------------------------------------
  // The capture callback

  /** `Catch_incoming_connection`: remembers the last packet and its headers. */
  class Catcher {
    const kind: int
    var headers: Headers
    var data: Bytes

    /** Nothing was kept, or the headers are those of the kept data. */
    ghost predicate Valid()
      reads this
    {
      || (headers == Headers(None, None) && data == [])
      || exists stray: Byte :: HeadersOf(kind, data, stray) == Ok(headers)
    }

    constructor (linkType: int)
      ensures Valid() && kind == linkType && headers == Headers(None, None) && data == []
    {
      kind := linkType;
      headers := Headers(None, None);
      data := [];
    }

    /** The callback; `None` is a null header or packet pointer. */
    method Call(packet: Option<Bytes>, stray: Byte)
      requires Valid()
      modifies this
      ensures Valid()
      ensures packet.None? ==> headers == old(headers) && data == old(data)
      ensures packet.Some? && HeadersOf(kind, packet.value, stray).Ok? ==>
        data == packet.value && headers == HeadersOf(kind, packet.value, stray).value
      ensures packet.Some? && HeadersOf(kind, packet.value, stray).Throws? ==>
        data == [] && headers == Headers(None, None)
    {
      if packet.None? { return; }
      data := packet.value;
      var parsed := GetHeaders(kind, data, stray);
      if parsed.Throws? {
        data := [];
        headers := Headers(None, None);
      } else {
        headers := parsed.value;
      }
    }
  }

  /** After any callbacks on a cooked capture, replaying what was caught never meets a missing IP header. */
  lemma CaughtIsReplayable(c: Catcher, target: Mac, stray: Byte)
    requires c.Valid() && c.kind == DLT_LINUX_SLL && c.headers.ip.Some?
    ensures Replayed(c.data, target, stray).Injects?
  {
    var s: Byte :| HeadersOf(c.kind, c.data, s) == Ok(c.headers);
    StrayIrrelevantIff(c.kind, c.data);
  }
}
