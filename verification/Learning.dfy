/** Base learning from the marker segment, the filter for the hidden control connection,
    and the NFQUEUE callbacks that apply them. */
module Learning {
  import opened Bytes
  import opened Ipv4
  import opened OuterPacket
  import Stream

  /** `TCP_LEARN_MARKER`, the letter L. */
  const MARKER: Octets := [0x4c]

  datatype RealBase = RealBase(clientSeq: u32, proxySeq: u32, learned: bool)
  datatype FakeBase = FakeBase(clientSeq: u32, proxySeq: u32, initialized: bool)

  /** The only control segments let through: this flow and acknowledgement number, and one
      of two sequence numbers. */
  datatype ControlAck = ControlAck(flow: Flow, seqNum: u32, ackNum: u32, flags: u8, learned: bool)

  datatype Bases = Bases(realBase: RealBase, fakeBase: FakeBase, ack: ControlAck)

  const NOTHING_LEARNED: Bases :=
    Bases(RealBase(0, 0, false), FakeBase(0, 0, false), ControlAck(Flow(0, 0, 0, 0), 0, 0, 0, false))

  predicate IsMarker(s: Segment) {
    s.payload == MARKER
  }

  /** What `client_learning_callback` stores on a marker, which it sees leaving. */
  function ClientLearns(s: Segment): Bases {
    var fakeBase := FakeBase(Add32(s.seqNum, 1), s.ackNum, true);
    Bases(RealBase(s.seqNum, Add32(s.ackNum, -1), true), fakeBase,
          ControlAck(Reverse(s.flow), fakeBase.proxySeq, fakeBase.clientSeq, FLAG_ACK, true))
  }

  /** What `proxy_learning_callback` stores on a marker, which it sees arriving. */
  function ProxyLearns(s: Segment): Bases {
    var fakeBase := FakeBase(Add32(s.seqNum, 1), s.ackNum, true);
    Bases(RealBase(s.seqNum, Add32(s.ackNum, -1), true), fakeBase,
          ControlAck(s.flow, fakeBase.clientSeq, fakeBase.proxySeq, FLAG_ACK, true))
  }

  function MirrorAck(a: ControlAck): ControlAck {
    ControlAck(Reverse(a.flow), a.ackNum, a.seqNum, a.flags, a.learned)
  }

  /** Equal bases on both sides, and filters that are mirror images. */
  predicate Mirrored(client: Bases, proxy: Bases) {
    client.realBase == proxy.realBase && client.fakeBase == proxy.fakeBase && client.ack == MirrorAck(proxy.ack)
  }

  /** Two ends agree if and only if they learned from markers of the same flow with the same
      two numbers; which copy of a retransmitted marker each of them saw does not matter. */
  lemma MirroredIffSameNumbers(s: Segment, t: Segment)
    ensures Mirrored(ClientLearns(s), ProxyLearns(t))
       <==> s.flow == t.flow && s.seqNum == t.seqNum && s.ackNum == t.ackNum
  {
    if Mirrored(ClientLearns(s), ProxyLearns(t)) {
      assert Reverse(Reverse(s.flow)) == s.flow && Reverse(Reverse(t.flow)) == t.flow;
    }
  }

  /** `is_client_allowed_control_ack` and `is_proxy_allowed_control_ack`. */
  predicate AllowedControlAck(s: Segment, learned: ControlAck) {
    && learned.learned
    && s.payload == []
    && s.flags == FLAG_ACK
    && s.flow == learned.flow
    && s.ackNum == learned.ackNum
    && (s.seqNum == learned.seqNum || s.seqNum == Add32(learned.seqNum, -1))
  }

  /** Which segments the filters let through, in terms of the marker they were learned from:
      two each, the pure ACK of an idle far end and its keepalive probe. */
  lemma AllowedExactly(marker: Segment, s: Segment)
    ensures AllowedControlAck(s, ClientLearns(marker).ack)
       <==> || s == Segment(Reverse(marker.flow), marker.ackNum, Add32(marker.seqNum, 1), 0x10, [])
            || s == Segment(Reverse(marker.flow), Add32(marker.ackNum, -1), Add32(marker.seqNum, 1), 0x10, [])
    ensures AllowedControlAck(s, ProxyLearns(marker).ack)
       <==> || s == Segment(marker.flow, Add32(marker.seqNum, 1), marker.ackNum, 0x10, [])
            || s == Segment(marker.flow, marker.seqNum, marker.ackNum, 0x10, [])
  {
    assert Add32(Add32(marker.seqNum, 1), -1) == marker.seqNum;
  }

  datatype Decision = Accept | Drop | ToTun(packet: Octets)

  /** What the tunnel callbacks decide about a segment they could parse. */
  function Decide(s: Segment, ack: ControlAck, dataPlane: bool): Decision {
    if s.payload == [] then
      if AllowedControlAck(s, ack) then Accept else Drop
    else if !dataPlane then Drop
    else match ExtractInner(s.payload)
      case None => Drop
      case Some(packet) => ToTun(packet)
  }

  function DecidePacket(packet: Octets, f: Flow, ack: ControlAck, dataPlane: bool): Decision {
    match Parse(packet, f)
    case None => Drop
    case Some(s) => Decide(s, ack, dataPlane)
  }

  /** Options and trailing octets make no difference to the filter: it decides about the
      segment that was laid out. */
  lemma OptionsDoNotMatter(h: Headers, s: Segment, trailing: Octets, ack: ControlAck, dataPlane: bool)
    requires Layable(h, s)
    ensures DecidePacket(Lay(h, s) + trailing, s.flow, ack, dataPlane) == Decide(s, ack, dataPlane)
  {
    ParseLaidOut(h, s, trailing);
  }

  /** So a control ACK passes with options as without, and a marker with options is learned
      from. */
  lemma OptionsOnControlSegments(h: Headers, s: Segment, trailing: Octets, ack: ControlAck, dataPlane: bool)
    requires Layable(h, s)
    ensures AllowedControlAck(s, ack) ==> DecidePacket(Lay(h, s) + trailing, s.flow, ack, dataPlane) == Accept
    ensures IsMarker(s) ==> exists t :: Parse(Lay(h, s) + trailing, s.flow) == Some(t) && t.payload == [0x4c] && t == s
  {
    OptionsDoNotMatter(h, s, trailing, ack, dataPlane);
    ParseLaidOut(h, s, trailing);
  }

  /** A marker never reaches the TUN and never reaches the kernel through the filter, data
      plane open or not. */
  lemma MarkerDropped(s: Segment, ack: ControlAck, dataPlane: bool)
    requires IsMarker(s)
    ensures Decide(s, ack, dataPlane) == Drop
  {
  }

  /** The kernel gets exactly the allowed control ACKs; the TUN gets the whole payload, and
      only a well-formed one while the data plane is open. */
  lemma DecideExactly(s: Segment, ack: ControlAck, dataPlane: bool)
    ensures var d := Decide(s, ack, dataPlane);
      && (d == Accept <==> AllowedControlAck(s, ack))
      && (d.ToTun? <==> dataPlane && WellFormed(s.payload) && |s.payload| <= TUN_MTU)
      && (d.ToTun? ==> d.packet == s.payload)
  {
    ParsersAgree(s.payload);
  }

  /** Tunnelled packets: what the far loop built from a TUN packet goes to this TUN octet
      for octet, exactly when the data plane is open and the packet is well-formed IPv4; it
      never goes to the kernel. */
  lemma TunnelDelivers(f: Flow, seqNum: u32, ackNum: u32, inner: Octets, ack: ControlAck, dataPlane: bool)
    requires Buildable(inner)
    ensures DecidePacket(Build(f, seqNum, ackNum, inner), f, ack, dataPlane)
         == if dataPlane && WellFormed(inner) then ToTun(inner) else Drop
  {
    ParseBuild(f, seqNum, ackNum, inner);
    InnerRoundTrip(f, seqNum, ackNum, inner);
  }

  // ---------- The callbacks ----------

  datatype Verdict = NfAccept | NfDrop

  /** `ClientNfqueueContext` and `ProxyNfqueueContext` with what they point to. */
  class LearningContext {
    var realBase: RealBase
    var fakeBase: FakeBase
    var controlAck: ControlAck
    var learned: bool

    function View(): Bases
      reads this
    {
      Bases(realBase, fakeBase, controlAck)
    }

    constructor ()
      ensures View() == NOTHING_LEARNED && !learned
    {
      realBase, fakeBase, controlAck := NOTHING_LEARNED.realBase, NOTHING_LEARNED.fakeBase, NOTHING_LEARNED.ack;
      learned := false;
    }

    /** `client_learning_callback` on the outgoing side; `config` is local to proxy. */
    method ClientLearningCallback(packet: Octets, config: Flow) returns (verdict: Verdict)
      modifies this
      ensures verdict == NfAccept
      ensures match Parse(packet, config)
        case Some(s) => if IsMarker(s) then View() == ClientLearns(s) && learned else View() == old(View()) && learned == old(learned)
        case None => View() == old(View()) && learned == old(learned)
    {
      verdict := NfAccept;
      var parsed := Parse(packet, config);
      if parsed.None? || !IsMarker(parsed.value) {
        return;
      }
      var s := parsed.value;
      realBase := RealBase(s.seqNum, Add32(s.ackNum, -1), true);
      fakeBase := FakeBase(Add32(s.seqNum, 1), s.ackNum, true);
      controlAck := ControlAck(Flow(config.dstIp, config.srcIp, config.dstPort, config.srcPort),
                               fakeBase.proxySeq, fakeBase.clientSeq, FLAG_ACK, true);
      learned := true;
    }

    /** `proxy_learning_callback` on the incoming side; `config` is client to proxy. */
    method ProxyLearningCallback(packet: Octets, config: Flow) returns (verdict: Verdict)
      modifies this
      ensures verdict == NfAccept
      ensures match Parse(packet, config)
        case Some(s) => if IsMarker(s) then View() == ProxyLearns(s) && learned else View() == old(View()) && learned == old(learned)
        case None => View() == old(View()) && learned == old(learned)
    {
      verdict := NfAccept;
      var parsed := Parse(packet, config);
      if parsed.None? || !IsMarker(parsed.value) {
        return;
      }
      var s := parsed.value;
      realBase := RealBase(s.seqNum, Add32(s.ackNum, -1), true);
      fakeBase := FakeBase(Add32(s.seqNum, 1), s.ackNum, true);
      controlAck := ControlAck(s.flow, fakeBase.clientSeq, fakeBase.proxySeq, FLAG_ACK, true);
      learned := true;
    }
  }

  /** `ClientTunnelState` and `ProxyTunnelState`, as far as the tunnel callbacks use them. */
  class TunnelState {
    var tun: Stream.Tun?
    var dataPlaneReady: bool
    var sessionError: bool
    var controlAck: ControlAck

    constructor (ack: ControlAck)
      ensures tun == null && !dataPlaneReady && !sessionError && controlAck == ack
    {
      tun, dataPlaneReady, sessionError, controlAck := null, false, false, ack;
    }

    /** `client_tunnel_callback` and `proxy_tunnel_callback`: the kernel gets a segment only
        if it is an allowed control ACK; the TUN is offered exactly the inner packet of a
        tunnelled segment; a failed write ends the session with an error. */
    method TunnelCallback(packet: Octets, config: Flow) returns (verdict: Verdict, wrote: bool)
      modifies this`sessionError, tun
      ensures var decision := DecidePacket(packet, config, controlAck, dataPlaneReady);
        && (verdict == NfAccept <==> decision == Accept)
        && (wrote <==> decision.ToTun? && tun != null && Stream.Accepts(old(tun.outcomes)))
        && (tun != null ==> tun.written == if wrote then old(tun.written) + [decision.packet] else old(tun.written))
        && (tun != null ==> tun.outcomes == if decision.ToTun? then Stream.Later(old(tun.outcomes)) else old(tun.outcomes))
        && (sessionError <==> old(sessionError) || (decision.ToTun? && tun != null && !wrote))
    {
      wrote := false;
      verdict := NfDrop;
      var parsed := Parse(packet, config);
      if parsed.None? {
        return;
      }
      var s := parsed.value;
      if |s.payload| == 0 {
        if AllowedControlAck(s, controlAck) {
          verdict := NfAccept;
        }
        return;
      }
      if !dataPlaneReady {
        return;
      }
      var inner := ExtractInner(s.payload);
      if inner.None? || tun == null {
        return;
      }
      wrote := tun.Write(inner.value);
      if !wrote {
        sessionError := true;
      }
    }
  }
}
