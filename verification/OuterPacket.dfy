/** The outer IPv4/TCP segment of the LTE pair: `build_outer_packet` as a printer and the
    outer parsers as its reader. Client and proxy run the same code with source and
    destination exchanged, so a flow says which direction is meant. */
module OuterPacket {
  import opened Bytes
  import opened Ipv4
  import opened Checksum

  const TCP_HEADER_SIZE: nat := 20
  const PROTOCOL_TCP: u8 := 6
  const FLAG_ACK: u8 := 0x10
  const FLAGS_PSH_ACK: u8 := 0x18
  const DONT_FRAGMENT: u16 := 0x4000
  const RAW_TTL: u8 := 64

  /** One direction of a connection. Addresses are their octets in network order read as
      one number, which is how the configurations hold them. */
  datatype Flow = Flow(srcIp: u32, dstIp: u32, srcPort: u16, dstPort: u16)

  function Reverse(f: Flow): Flow {
    Flow(f.dstIp, f.srcIp, f.dstPort, f.srcPort)
  }

  /** What a parser reports of a TCP segment. */
  datatype Segment = Segment(flow: Flow, seqNum: u32, ackNum: u32, flags: u8, payload: Octets)

  // ---------- The printer ----------

  function IpFront(totalLen: u16): Octets {
    [0x45, 0] + Be16(totalLen) + Be16(0) + Be16(DONT_FRAGMENT) + [RAW_TTL, PROTOCOL_TCP]
  }

  function Addresses(f: Flow): Octets {
    Be32(f.srcIp) + Be32(f.dstIp)
  }

  function IpHeader(f: Flow, totalLen: u16, check: u16): Octets {
    IpFront(totalLen) + Be16(check) + Addresses(f)
  }

  function TcpFront(f: Flow, seqNum: u32, ackNum: u32): Octets {
    Be16(f.srcPort) + Be16(f.dstPort) + Be32(seqNum) + Be32(ackNum) + [0x50, FLAGS_PSH_ACK] + Be16(0xffff)
  }

  function TcpHeader(f: Flow, seqNum: u32, ackNum: u32, check: u16): Octets {
    TcpFront(f, seqNum, ackNum) + Be16(check) + Be16(0)
  }

  /** The TCP pseudo-header (section 3.1 of RFC 9293). */
  function PseudoHeader(f: Flow, tcpLen: u16): Octets {
    Addresses(f) + [0, PROTOCOL_TCP] + Be16(tcpLen)
  }

  predicate Buildable(inner: Octets) {
    0 < |inner| <= TUN_MTU
  }

  function IpCheck(f: Flow, innerLen: nat): u16
    requires innerLen <= TUN_MTU
  {
    Complement(IpHeader(f, 40 + innerLen, 0))
  }

  function TcpCheck(f: Flow, seqNum: u32, ackNum: u32, inner: Octets): u16
    requires |inner| <= TUN_MTU
  {
    Complement(PseudoHeader(f, 20 + |inner|) + TcpHeader(f, seqNum, ackNum, 0) + inner)
  }

  /** The packet on the wire. */
  function Build(f: Flow, seqNum: u32, ackNum: u32, inner: Octets): Octets
    requires Buildable(inner)
  {
    IpHeader(f, 40 + |inner|, IpCheck(f, |inner|))
      + TcpHeader(f, seqNum, ackNum, TcpCheck(f, seqNum, ackNum, inner))
      + inner
  }

  // ---------- The reader ----------

  function TcpHeaderLen(b: Octets, at: nat): nat
    requires at + TCP_HEADER_SIZE <= |b|
  {
    b[at + 12] / 16 * 4
  }

  /** `parse_client_to_proxy_tcp_packet` and `parse_proxy_to_client_tcp_packet`. Every read
      is in bounds and every length subtraction stays non-negative, for any octets. */
  function Parse(packet: Octets, f: Flow): (r: Option<Segment>)
    ensures r.Some? ==> r.value.flow == f && |r.value.payload| + 40 <= |packet|
  {
    if |packet| < IPV4_HEADER_SIZE then None
    else if Version(packet) != 4 then None
    else if packet[9] != PROTOCOL_TCP then None
    else
      var ipLen: nat := HeaderLen(packet);
      if ipLen < IPV4_HEADER_SIZE then None
      else if |packet| < ipLen + TCP_HEADER_SIZE then None
      else
        var total: nat := TotalLength(packet);
        if total < ipLen + TCP_HEADER_SIZE then None
        else if |packet| < total then None
        else if Get32(packet, 12) != f.srcIp then None
        else if Get32(packet, 16) != f.dstIp then None
        else
          var tcpLen := TcpHeaderLen(packet, ipLen);
          if tcpLen < TCP_HEADER_SIZE then None
          else if total < ipLen + tcpLen then None
          else if Get16(packet, ipLen) != f.srcPort then None
          else if Get16(packet, ipLen + 2) != f.dstPort then None
          else
            var offset: nat := ipLen + tcpLen;
            var payloadLen: nat := total - offset;
            Some(Segment(f, Get32(packet, ipLen + 4), Get32(packet, ipLen + 8), packet[ipLen + 13],
                         packet[offset..offset + payloadLen]))
  }

  // ---------- Every packet the reader accepts, octet by octet ----------

  /** What a segment's headers hold beside the fields the reader reports: type of service;
      identification, flags and fragment offset; time to live; checksum and options of the IP
      header; the reserved bits, window, checksum, urgent pointer and options of the TCP
      header (section 3.1 of RFC 9293). */
  datatype Headers = Headers(tos: u8, fragment: Octets, ttl: u8, ipCheck: u16, ipOptions: Octets,
                             reserved: u8, windowCheckUrgent: Octets, tcpOptions: Octets)

  /** Both header lengths are multiples of four, at most sixty; the total length fits. */
  predicate Layable(h: Headers, s: Segment) {
    && |h.fragment| == 4 && |h.windowCheckUrgent| == 6 && h.reserved < 16
    && |h.ipOptions| % 4 == 0 && |h.ipOptions| <= 40
    && |h.tcpOptions| % 4 == 0 && |h.tcpOptions| <= 40
    && 40 + |h.ipOptions| + |h.tcpOptions| + |s.payload| < 0x1_0000
  }

  function LayIp(h: Headers, s: Segment): (b: Octets)
    requires Layable(h, s)
    ensures |b| == 20 + |h.ipOptions|
  {
    [0x45 + |h.ipOptions| / 4, h.tos] + Be16(40 + |h.ipOptions| + |h.tcpOptions| + |s.payload|)
      + h.fragment + [h.ttl, 6] + Be16(h.ipCheck) + Be32(s.flow.srcIp) + Be32(s.flow.dstIp) + h.ipOptions
  }

  function LayTcp(h: Headers, s: Segment): (b: Octets)
    requires Layable(h, s)
    ensures |b| == 20 + |h.tcpOptions|
  {
    Be16(s.flow.srcPort) + Be16(s.flow.dstPort) + Be32(s.seqNum) + Be32(s.ackNum)
      + [0x50 + |h.tcpOptions| / 4 * 16 + h.reserved, s.flags] + h.windowCheckUrgent + h.tcpOptions
  }

  /** The segment with these headers on the wire. */
  function Lay(h: Headers, s: Segment): Octets
    requires Layable(h, s)
  {
    LayIp(h, s) + LayTcp(h, s) + s.payload
  }

  lemma GetBe32(v: u32)
    ensures Get32(Be32(v), 0) == v
  {
    assert Get16(Be32(v), 0) == v / 0x1_0000;
    assert Get16(Be32(v), 2) == v % 0x1_0000;
  }

  /** Reading a number where it was put. */
  lemma Get16At(b: Octets, i: nat, v: u16)
    requires i + 2 <= |b| && b[i..i + 2] == Be16(v)
    ensures Get16(b, i) == v
  {
    assert b[i] == Be16(v)[0] && b[i + 1] == Be16(v)[1];
  }

  lemma Get32At(b: Octets, i: nat, v: u32)
    requires i + 4 <= |b| && b[i..i + 4] == Be32(v)
    ensures Get32(b, i) == v
  {
    GetBe32(v);
    assert b[i] == Be32(v)[0] && b[i + 1] == Be32(v)[1] && b[i + 2] == Be32(v)[2] && b[i + 3] == Be32(v)[3];
  }

  lemma LayIpFields(h: Headers, s: Segment)
    requires Layable(h, s)
    ensures var b := LayIp(h, s);
      && b[0] == 0x45 + |h.ipOptions| / 4 && b[9] == 6
      && Get16(b, 2) == 40 + |h.ipOptions| + |h.tcpOptions| + |s.payload|
      && Get32(b, 12) == s.flow.srcIp && Get32(b, 16) == s.flow.dstIp
  {
    var b := LayIp(h, s);
    Get16At(b, 2, 40 + |h.ipOptions| + |h.tcpOptions| + |s.payload|);
    Get32At(b, 12, s.flow.srcIp);
    Get32At(b, 16, s.flow.dstIp);
  }

  lemma LayTcpFields(h: Headers, s: Segment)
    requires Layable(h, s)
    ensures var b := LayTcp(h, s);
      && b[12] / 16 == 5 + |h.tcpOptions| / 4 && b[13] == s.flags
      && Get16(b, 0) == s.flow.srcPort && Get16(b, 2) == s.flow.dstPort
      && Get32(b, 4) == s.seqNum && Get32(b, 8) == s.ackNum
  {
    var b := LayTcp(h, s);
    Get16At(b, 0, s.flow.srcPort);
    Get16At(b, 2, s.flow.dstPort);
    Get32At(b, 4, s.seqNum);
    Get32At(b, 8, s.ackNum);
  }

  /** The numbers do not change when more octets surround them. */
  lemma GetWithin(b: Octets, from: nat, part: Octets, i: nat)
    requires from + |part| <= |b| && b[from..from + |part|] == part
    ensures i < |part| ==> b[from + i] == part[i]
    ensures i + 2 <= |part| ==> Get16(b, from + i) == Get16(part, i)
    ensures i + 4 <= |part| ==> Get32(b, from + i) == Get32(part, i)
  {
    assert forall k | 0 <= k < |part| :: b[from + k] == part[k];
  }

  /** The IP header `ip` at the front of `b`, the TCP header `tcp` behind it. */
  predicate Starts(b: Octets, ip: Octets, tcp: Octets) {
    && |ip| + |tcp| <= |b| && |ip| >= 20 && |tcp| >= 20
    && b[..|ip|] == ip && b[|ip|..|ip| + |tcp|] == tcp
  }

  lemma StartsIp(b: Octets, ip: Octets, tcp: Octets)
    requires Starts(b, ip, tcp)
    ensures b[0] == ip[0] && b[9] == ip[9] && Get16(b, 2) == Get16(ip, 2)
    ensures Get32(b, 12) == Get32(ip, 12) && Get32(b, 16) == Get32(ip, 16)
  {
    GetWithin(b, 0, ip, 0);
    GetWithin(b, 0, ip, 2);
    GetWithin(b, 0, ip, 9);
    GetWithin(b, 0, ip, 12);
    GetWithin(b, 0, ip, 16);
  }

  lemma StartsTcp(b: Octets, ip: Octets, tcp: Octets)
    requires Starts(b, ip, tcp)
    ensures b[|ip| + 12] == tcp[12] && b[|ip| + 13] == tcp[13]
    ensures Get16(b, |ip|) == Get16(tcp, 0) && Get16(b, |ip| + 2) == Get16(tcp, 2)
    ensures Get32(b, |ip| + 4) == Get32(tcp, 4) && Get32(b, |ip| + 8) == Get32(tcp, 8)
  {
    GetWithin(b, |ip|, tcp, 0);
    GetWithin(b, |ip|, tcp, 2);
    GetWithin(b, |ip|, tcp, 4);
    GetWithin(b, |ip|, tcp, 8);
    GetWithin(b, |ip|, tcp, 12);
    GetWithin(b, |ip|, tcp, 13);
  }

  lemma LayStarts(h: Headers, s: Segment, trailing: Octets)
    requires Layable(h, s)
    ensures var b, n := Lay(h, s) + trailing, 40 + |h.ipOptions| + |h.tcpOptions|;
      && Starts(b, LayIp(h, s), LayTcp(h, s))
      && |b| == n + |s.payload| + |trailing| && b[n..n + |s.payload|] == s.payload
  {
  }

  /** Whatever the options, the reserved bits and the octets behind the packet: read under its
      flow, a segment comes back as it was laid out. */
  lemma ParseLaidOut(h: Headers, s: Segment, trailing: Octets)
    requires Layable(h, s)
    ensures Parse(Lay(h, s) + trailing, s.flow) == Some(s)
  {
    var ip, tcp := LayIp(h, s), LayTcp(h, s);
    LayStarts(h, s, trailing);
    LayIpFields(h, s);
    LayTcpFields(h, s);
    ParseStarting(Lay(h, s) + trailing, h, s, ip, tcp);
  }

  lemma ParseStarting(b: Octets, h: Headers, s: Segment, ip: Octets, tcp: Octets)
    requires Layable(h, s) && Starts(b, ip, tcp)
    requires |ip| == 20 + |h.ipOptions| && |tcp| == 20 + |h.tcpOptions|
    requires ip[0] == 0x45 + |h.ipOptions| / 4 && ip[9] == 6 && Get16(ip, 2) == |ip| + |tcp| + |s.payload|
    requires Get32(ip, 12) == s.flow.srcIp && Get32(ip, 16) == s.flow.dstIp
    requires tcp[12] / 16 == 5 + |h.tcpOptions| / 4 && tcp[13] == s.flags
    requires Get16(tcp, 0) == s.flow.srcPort && Get16(tcp, 2) == s.flow.dstPort
    requires Get32(tcp, 4) == s.seqNum && Get32(tcp, 8) == s.ackNum
    requires |ip| + |tcp| + |s.payload| <= |b| && b[|ip| + |tcp|..|ip| + |tcp| + |s.payload|] == s.payload
    ensures Parse(b, s.flow) == Some(s)
  {
    StartsIp(b, ip, tcp);
    StartsTcp(b, ip, tcp);
    assert HeaderLen(b) == |ip| && TcpHeaderLen(b, |ip|) == |tcp|;
  }

  lemma BeGet16(b: Octets, i: nat)
    requires i + 2 <= |b|
    ensures Be16(Get16(b, i)) == b[i..i + 2]
  {
  }

  lemma BeGet32(b: Octets, i: nat)
    requires i + 4 <= |b|
    ensures Be32(Get32(b, i)) == b[i..i + 4]
  {
  }

  /** The headers of an accepted packet. */
  function HeadersOf(b: Octets): Headers
    requires |b| >= 40 && 20 <= HeaderLen(b) && HeaderLen(b) as nat + 20 <= |b|
    requires TcpHeaderLen(b, HeaderLen(b)) >= 20 && HeaderLen(b) as nat + TcpHeaderLen(b, HeaderLen(b)) <= |b|
  {
    var ip: nat := HeaderLen(b);
    Headers(b[1], b[4..8], b[8], Get16(b, 10), b[20..ip],
            b[ip + 12] % 16, b[ip + 14..ip + 20], b[ip + 20..ip + TcpHeaderLen(b, ip)])
  }

  lemma HeadersFit(b: Octets, f: Flow)
    requires Parse(b, f).Some?
    ensures var h, s, ip := HeadersOf(b), Parse(b, f).value, HeaderLen(b) as nat;
      && Layable(h, s) && ip == 20 + |h.ipOptions| && TcpHeaderLen(b, ip) == 20 + |h.tcpOptions|
      && b[0] == 0x45 + |h.ipOptions| / 4 && b[ip + 12] == 0x50 + |h.tcpOptions| / 4 * 16 + h.reserved
      && TotalLength(b) == ip + TcpHeaderLen(b, ip) + |s.payload| <= |b|
  {
  }

  lemma Reassembled(b: Octets, i: nat, j: nat, k: nat)
    requires i <= j <= k <= |b|
    ensures b == b[..i] + b[i..j] + b[j..k] + b[k..] && b[i..][..j - i] == b[i..j]
  {
  }

  /** And nothing else is accepted: a packet from which the reader gets a segment is that
      segment laid out, with whatever headers, under that flow. */
  lemma ParsedIsLaidOut(b: Octets, f: Flow) returns (h: Headers, trailing: Octets)
    requires Parse(b, f).Some?
    ensures var s := Parse(b, f).value; Layable(h, s) && b == Lay(h, s) + trailing
  {
    var s := Parse(b, f).value;
    var ip: nat := HeaderLen(b);
    var total: nat := TotalLength(b);
    HeadersFit(b, f);
    h, trailing := HeadersOf(b), b[total..];
    IpPartLaidOut(b, h, s);
    TcpFieldsBehind(b, ip, h, s);
    TcpPartLaidOut(b[ip..], h, s);
    Reassembled(b, ip, ip + TcpHeaderLen(b, ip), total);
  }

  lemma TcpFieldsBehind(b: Octets, ip: nat, h: Headers, s: Segment)
    requires ip + 20 + |h.tcpOptions| <= |b|
    ensures var t := b[ip..];
      && t[12] == b[ip + 12] && t[13] == b[ip + 13]
      && Get16(t, 0) == Get16(b, ip) && Get16(t, 2) == Get16(b, ip + 2)
      && Get32(t, 4) == Get32(b, ip + 4) && Get32(t, 8) == Get32(b, ip + 8)
      && t[14..20] == b[ip + 14..ip + 20] && t[20..20 + |h.tcpOptions|] == b[ip + 20..ip + 20 + |h.tcpOptions|]
  {
  }

  lemma IpPartLaidOut(b: Octets, h: Headers, s: Segment)
    requires Layable(h, s) && |b| >= 20 + |h.ipOptions|
    requires b[0] == 0x45 + |h.ipOptions| / 4 && b[1] == h.tos && b[4..8] == h.fragment && b[8] == h.ttl && b[9] == 6
    requires Get16(b, 2) == 40 + |h.ipOptions| + |h.tcpOptions| + |s.payload| && Get16(b, 10) == h.ipCheck
    requires Get32(b, 12) == s.flow.srcIp && Get32(b, 16) == s.flow.dstIp && b[20..20 + |h.ipOptions|] == h.ipOptions
    ensures b[..20 + |h.ipOptions|] == LayIp(h, s)
  {
    BeGet16(b, 2);
    BeGet16(b, 10);
    BeGet32(b, 12);
    BeGet32(b, 16);
    assert b[..20 + |h.ipOptions|]
        == [b[0], b[1]] + b[2..4] + b[4..8] + [b[8], b[9]] + b[10..12] + b[12..16] + b[16..20] + b[20..20 + |h.ipOptions|];
  }

  lemma TcpPartLaidOut(b: Octets, h: Headers, s: Segment)
    requires Layable(h, s) && |b| >= 20 + |h.tcpOptions|
    requires b[12] == 0x50 + |h.tcpOptions| / 4 * 16 + h.reserved && b[13] == s.flags
    requires Get16(b, 0) == s.flow.srcPort && Get16(b, 2) == s.flow.dstPort
    requires Get32(b, 4) == s.seqNum && Get32(b, 8) == s.ackNum
    requires b[14..20] == h.windowCheckUrgent && b[20..20 + |h.tcpOptions|] == h.tcpOptions
    ensures b[..20 + |h.tcpOptions|] == LayTcp(h, s)
  {
    BeGet16(b, 0);
    BeGet16(b, 2);
    BeGet32(b, 4);
    BeGet32(b, 8);
    assert b[..20 + |h.tcpOptions|]
        == b[0..2] + b[2..4] + b[4..8] + b[8..12] + [b[12], b[13]] + b[14..20] + b[20..20 + |h.tcpOptions|];
  }

  /** The reader is the inverse of the layout, for all octets: it reports a segment of the
      given flow if and only if the packet is that segment laid out. */
  lemma ParseExactly(b: Octets, f: Flow, s: Segment)
    ensures Parse(b, f) == Some(s)
       <==> s.flow == f && exists h, trailing :: Layable(h, s) && b == Lay(h, s) + trailing
  {
    if Parse(b, f) == Some(s) {
      var h, trailing := ParsedIsLaidOut(b, f);
    } else if s.flow == f {
      forall h, trailing | Layable(h, s) ensures b != Lay(h, s) + trailing {
        ParseLaidOut(h, s, trailing);
      }
    }
  }

  // ---------- Reading what was printed ----------

  lemma HeaderOctets(f: Flow, seqNum: u32, ackNum: u32, inner: Octets)
    requires Buildable(inner)
    ensures var b := Build(f, seqNum, ackNum, inner);
      && |b| == 40 + |inner|
      && b[..20] == IpHeader(f, 40 + |inner|, IpCheck(f, |inner|))
      && b[20..40] == TcpHeader(f, seqNum, ackNum, TcpCheck(f, seqNum, ackNum, inner))
      && b[40..] == inner
  {
  }

  /** The built packet, laid out: no options, don't fragment, time to live 64, PSH and ACK, the
      largest window, no urgent data. */
  lemma BuildLaidOut(f: Flow, seqNum: u32, ackNum: u32, inner: Octets)
    requires Buildable(inner)
    ensures var h := Headers(0, [0, 0, 0x40, 0], 64, IpCheck(f, |inner|), [],
                             0, [0xff, 0xff] + Be16(TcpCheck(f, seqNum, ackNum, inner)) + [0, 0], []);
      var s := Segment(f, seqNum, ackNum, 0x18, inner);
      Layable(h, s) && Build(f, seqNum, ackNum, inner) == Lay(h, s) + []
  {
    var h := Headers(0, [0, 0, 0x40, 0], 64, IpCheck(f, |inner|), [],
                     0, [0xff, 0xff] + Be16(TcpCheck(f, seqNum, ackNum, inner)) + [0, 0], []);
    var s := Segment(f, seqNum, ackNum, 0x18, inner);
    assert LayIp(h, s) == IpHeader(f, 40 + |inner|, IpCheck(f, |inner|));
    assert LayTcp(h, s) == TcpHeader(f, seqNum, ackNum, TcpCheck(f, seqNum, ackNum, inner));
    assert Lay(h, s) + [] == Lay(h, s);
  }

  /** Round trip, both directions: the far side, configured with the same flow, parses what
      was built back into the same numbers and the same payload octets. */
  lemma ParseBuild(f: Flow, seqNum: u32, ackNum: u32, inner: Octets)
    requires Buildable(inner)
    ensures Parse(Build(f, seqNum, ackNum, inner), f) == Some(Segment(f, seqNum, ackNum, FLAGS_PSH_ACK, inner))
  {
    BuildLaidOut(f, seqNum, ackNum, inner);
    var h := Headers(0, [0, 0, 0x40, 0], 64, IpCheck(f, |inner|), [],
                     0, [0xff, 0xff] + Be16(TcpCheck(f, seqNum, ackNum, inner)) + [0, 0], []);
    ParseLaidOut(h, Segment(f, seqNum, ackNum, FLAGS_PSH_ACK, inner), []);
  }

  /** A packet is accepted under one flow at most. */
  lemma OneFlow(b: Octets, f: Flow, g: Flow)
    requires Parse(b, f).Some? && Parse(b, g).Some?
    ensures f == g
  {
  }

  /** And only that side: configured with any other flow, the parser refuses the packet. */
  lemma ParseOtherFlow(f: Flow, g: Flow, seqNum: u32, ackNum: u32, inner: Octets)
    requires Buildable(inner)
    ensures Parse(Build(f, seqNum, ackNum, inner), g).Some? <==> f == g
  {
    ParseBuild(f, seqNum, ackNum, inner);
    if Parse(Build(f, seqNum, ackNum, inner), g).Some? {
      OneFlow(Build(f, seqNum, ackNum, inner), f, g);
    }
  }

  /** Through the tunnel: an inner packet comes out octet for octet if and only if it is a
      well-formed IPv4 packet; anything else is refused. */
  lemma InnerRoundTrip(f: Flow, seqNum: u32, ackNum: u32, inner: Octets)
    requires Buildable(inner)
    ensures var segment := Parse(Build(f, seqNum, ackNum, inner), f).value;
      && ExtractInner(segment.payload) == (if WellFormed(inner) then Some(inner) else None)
  {
    ParseBuild(f, seqNum, ackNum, inner);
    ParsersAgree(inner);
  }

  /** Both checksums verify at the receiver, for even and odd payload lengths. */
  lemma BuiltPacketVerifies(f: Flow, seqNum: u32, ackNum: u32, inner: Octets)
    requires Buildable(inner)
    ensures var b := Build(f, seqNum, ackNum, inner);
      && Verifies(b[..20])
      && Verifies(Be32(f.srcIp) + Be32(f.dstIp) + [0, 6] + Be16(20 + |inner|) + b[20..])
  {
    var b := Build(f, seqNum, ackNum, inner);
    HeaderOctets(f, seqNum, ackNum, inner);
    ChecksumVerifies(IpFront(40 + |inner|), Addresses(f));
    var front := PseudoHeader(f, 20 + |inner|) + TcpFront(f, seqNum, ackNum);
    var back := Be16(0) + inner;
    var check := TcpCheck(f, seqNum, ackNum, inner);
    assert front + Be16(0) + back == PseudoHeader(f, 20 + |inner|) + TcpHeader(f, seqNum, ackNum, 0) + inner;
    ChecksumVerifies(front, back);
    assert front + Be16(check) + back == PseudoHeader(f, 20 + |inner|) + b[20..];
  }

  // ---------- The builder ----------

  /** `b` with `bs` copied over it at offset `at`. */
  function Splice(b: Octets, at: nat, bs: Octets): (r: Octets)
    requires at + |bs| <= |b|
    ensures |r| == |b|
    ensures r[at..at + |bs|] == bs
    ensures forall i | 0 <= i < |b| && !(at <= i < at + |bs|) :: r[i] == b[i]
  {
    b[..at] + bs + b[at + |bs|..]
  }

  /** `memcpy` of `bs` to offset `at`. */
  method Put(a: array<u8>, at: nat, bs: Octets)
    requires at + |bs| <= a.Length
    modifies a
    ensures a[..] == Splice(old(a[..]), at, bs)
  {
    var i := 0;
    while i < |bs|
      invariant 0 <= i <= |bs|
      invariant a[..] == Splice(old(a[..]), at, bs[..i])
    {
      a[at + i] := bs[i];
      i := i + 1;
    }
    assert bs[..i] == bs;
  }

  lemma SpliceIpHeader(b: Octets, f: Flow, totalLen: u16, check: u16)
    requires |b| >= 20
    ensures Splice(Splice(Splice(b, 0, IpFront(totalLen)), 10, Be16(check)), 12, Addresses(f)) == IpHeader(f, totalLen, check) + b[20..]
  {
    assert IpHeader(f, totalLen, check) + b[20..] == IpFront(totalLen) + Be16(check) + Addresses(f) + b[20..];
  }

  lemma SpliceIpCheck(rest: Octets, f: Flow, totalLen: u16, check: u16)
    ensures Splice(IpHeader(f, totalLen, 0) + rest, 10, Be16(check)) == IpHeader(f, totalLen, check) + rest
  {
  }

  lemma SpliceTcpHeader(b: Octets, f: Flow, seqNum: u32, ackNum: u32)
    requires |b| >= 40
    ensures Splice(Splice(Splice(b, 20, TcpFront(f, seqNum, ackNum)), 36, Be16(0)), 38, Be16(0))
         == b[..20] + TcpHeader(f, seqNum, ackNum, 0) + b[40..]
  {
  }

  lemma SpliceTcpCheck(ip: Octets, inner: Octets, f: Flow, seqNum: u32, ackNum: u32, check: u16)
    requires |ip| == 20
    ensures Splice(ip + TcpHeader(f, seqNum, ackNum, 0) + inner, 36, Be16(check)) == ip + TcpHeader(f, seqNum, ackNum, check) + inner
  {
  }

  method WriteIpHeader(a: array<u8>, f: Flow)
    requires 40 <= a.Length <= 40 + TUN_MTU
    modifies a
    ensures a[..] == IpHeader(f, a.Length, IpCheck(f, a.Length - 40)) + old(a[20..])
  {
    ghost var rest := a[20..];
    SpliceIpHeader(a[..], f, a.Length, 0);
    assert a[..][20..] == rest;
    Put(a, 0, IpFront(a.Length));
    Put(a, 10, Be16(0));
    Put(a, 12, Addresses(f));
    assert a[..20] == a[..][..20] == IpHeader(f, a.Length, 0);
    var check := Checksum16(a[..20]);
    SpliceIpCheck(rest, f, a.Length, check);
    Put(a, 10, Be16(check));
  }

  method WriteTcpHeader(a: array<u8>, f: Flow, seqNum: u32, ackNum: u32)
    requires 40 <= a.Length <= 40 + TUN_MTU
    modifies a
    ensures a[..] == old(a[..20]) + TcpHeader(f, seqNum, ackNum, TcpCheck(f, seqNum, ackNum, old(a[40..]))) + old(a[40..])
  {
    ghost var ip, inner := a[..20], a[40..];
    SpliceTcpHeader(a[..], f, seqNum, ackNum);
    assert a[..][..20] == ip && a[..][40..] == inner;
    Put(a, 20, TcpFront(f, seqNum, ackNum));
    Put(a, 36, Be16(0));
    Put(a, 38, Be16(0));
    assert a[20..40] == a[..][20..40] == TcpHeader(f, seqNum, ackNum, 0);
    assert a[40..] == a[..][40..] == inner;
    var check := Checksum16(PseudoHeader(f, a.Length - 20) + a[20..40] + a[40..]);
    SpliceTcpCheck(ip, inner, f, seqNum, ackNum, check);
    Put(a, 36, Be16(check));
  }

  /** `build_outer_packet`: fills a fresh zeroed buffer, or refuses an inner packet that is
      empty or longer than the MTU. */
  method BuildOuterPacket(inner: Octets, f: Flow, seqNum: u32, ackNum: u32) returns (ok: bool, outer: array<u8>)
    ensures fresh(outer)
    ensures ok == Buildable(inner)
    ensures ok ==> outer[..] == Build(f, seqNum, ackNum, inner)
  {
    if |inner| == 0 || |inner| > TUN_MTU {
      outer := new u8[0];
      return false, outer;
    }
    var totalLen := 40 + |inner|;
    outer := new u8[totalLen](_ => 0);
    Put(outer, 40, inner);
    assert outer[20..][20..] == outer[..][40..] == inner;
    WriteIpHeader(outer, f);
    assert outer[..20] == outer[..][..20];
    assert outer[40..] == outer[..][40..] == inner;
    WriteTcpHeader(outer, f, seqNum, ackNum);
    ok := true;
  }
}
