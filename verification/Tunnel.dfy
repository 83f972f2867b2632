/** The session protocol on top of the control connections it hides: the kernels at both
    ends, the segments between them, learning from those segments, the filters, and the
    tunnelled packets. The claim about whole runs is that both ends learn the same bases
    and that, from then on, the filters keep the hidden connection exactly where it was. */
module Tunnel {
  import opened Bytes
  import opened Ipv4
  import opened Messages
  import opened OuterPacket
  import opened Learning
  import opened S = Session

  // ---------- A kernel's end of the control connection ----------

  /** The numbers of section 3.3.1 of RFC 9293, the octets received, and whether anything
      else ever happened to the connection (another flag, or payload out of order). */
  datatype Kernel = Kernel(sndUna: u32, sndNxt: u32, rcvNxt: u32, received: Octets, disturbed: bool)

  /** How far `y` is ahead of `x`, around the wrap. */
  function Ahead(x: u32, y: u32): u32 {
    (y - x) % TWO32
  }

  function TakeAck(k: Kernel, ackNum: u32): Kernel {
    if 1 <= Ahead(k.sndUna, ackNum) <= Ahead(k.sndUna, k.sndNxt) then k.(sndUna := ackNum) else k
  }

  function TakePayload(k: Kernel, seqNum: u32, payload: Octets): Kernel {
    if payload == [] then k
    else if seqNum == k.rcvNxt then k.(rcvNxt := Add32(k.rcvNxt, |payload|), received := k.received + payload)
    else if |payload| <= Ahead(seqNum, k.rcvNxt) < 0x8000_0000 then k
    else k.(disturbed := true)
  }

  /** What a segment does to the kernel it reaches. */
  function Takes(k: Kernel, s: Segment): Kernel {
    if s.flags != FLAG_ACK && s.flags != FLAGS_PSH_ACK then k.(disturbed := true)
    else TakePayload(TakeAck(k, s.ackNum), s.seqNum, s.payload)
  }

  /** Pure ACKs, and keepalive probes when nothing is outstanding (section 3.8.4 of
      RFC 9293): all that an open, idle end sends. */
  predicate Idles(k: Kernel, f: Flow, s: Segment) {
    || s == Segment(f, k.sndNxt, k.rcvNxt, FLAG_ACK, [])
    || (k.sndUna == k.sndNxt && s == Segment(f, Add32(k.sndNxt, -1), k.rcvNxt, FLAG_ACK, []))
  }

  // ---------- Links ----------

  /** A control connection from the moment it is established. `client` is the process that
      opened it, `session` the proxy session that accepted it, if any; `clientNext` and
      `proxyNext` are the numbers both ends start from. The lists are the packets each raw
      thread has read from its TUN and each tunnel queue has written to its TUN. */
  datatype Link = Link(
    client: Nonce, session: Nonce, clientNext: u32, proxyNext: u32,
    ck: Kernel, pk: Kernel, markerWritten: bool,
    clientReads: set<Octets>, proxyReads: set<Octets>,
    clientWrites: set<Octets>, proxyWrites: set<Octets>)

  datatype System = System(s: S.State, links: map<Flow, Link>)

  function NewLink(n: Nonce, clientNext: u32, proxyNext: u32): Link {
    Link(n, "", clientNext, proxyNext,
         Kernel(clientNext, clientNext, proxyNext, [], false),
         Kernel(proxyNext, proxyNext, clientNext, [], false), false, {}, {}, {}, {})
  }

  /** The segment that carries the marker, however often it is transmitted. */
  function TheMarker(f: Flow, l: Link): Segment {
    Segment(f, l.clientNext, l.proxyNext, FLAGS_PSH_ACK, MARKER)
  }

  function SessionOf(st: System, l: Link): Option<Proxy> {
    if l.session in st.s.proxies then Some(st.s.proxies[l.session]) else None
  }

  // ---------- Events ----------

  datatype Event =
    | Acts(e: S.Event)
    | Connect(n: Nonce, f: Flow, clientNext: u32, proxyNext: u32)
    | AcceptConnection(n: Nonce, f: Flow)
    | WriteMarker(f: Flow)
    | ClientEmits(f: Flow, seg: Segment)
    | ProxyEmits(f: Flow, seg: Segment)
    | ClientInjects(f: Flow, seqNum: u32, inner: Octets)
    | ProxyInjects(f: Flow, seqNum: u32, inner: Octets)
    | ReachProxy(f: Flow, seg: Segment, queued: bool, wrote: bool)
    | ReachClient(f: Flow, seg: Segment, queued: bool, wrote: bool)

  /** What becomes of a segment at the proxy host, for the session that accepted the
      connection. `queued`: the tunnel queue took it in and decides, perhaps when the rule is
      gone already, perhaps on a test of the data plane made a while ago. Otherwise, with the
      rule in place it is lost, and without the rule the kernel gets it. */
  function ProxyDecides(q: Option<Proxy>, seg: Segment, queued: bool): Decision {
    if q.None? then Accept
    else if queued then Decide(seg, q.value.bases.ack, q.value.everOpen)
    else if q.value.tunnelRule then Drop
    else Accept
  }

  function ClientDecides(c: Client, seg: Segment, queued: bool): Decision {
    if queued then Decide(seg, c.bases.ack, c.everOpen)
    else if c.tunnelRule then Drop
    else Accept
  }

  function KernelAfter(k: Kernel, d: Decision, seg: Segment): Kernel {
    if d == Accept then Takes(k, seg) else k
  }

  function TunAfter(written: set<Octets>, d: Decision, wrote: bool): set<Octets> {
    if d.ToTun? && wrote then written + {d.packet} else written
  }

  /** An injected packet as the far parser sees it. */
  function Outer(f: Flow, seqNum: u32, ackNum: u32, inner: Octets): (seg: Segment)
    requires Buildable(inner)
    ensures seg == Segment(f, seqNum, ackNum, FLAGS_PSH_ACK, inner)
  {
    ParseBuild(f, seqNum, ackNum, inner);
    Parse(Build(f, seqNum, ackNum, inner), f).value
  }

  predicate LinkUp(st: System, f: Flow) {
    f in st.links && st.links[f].client in st.s.clients
  }

  function ClientOf(st: System, f: Flow): Client
    requires LinkUp(st, f)
  {
    st.s.clients[st.links[f].client]
  }

  /** One more segment on the wire, one link replaced. */
  function Sent(st: System, f: Flow, l: Link, seg: Segment): System {
    System(st.s.(wire := st.s.wire + {seg}), st.links[f := l])
  }

  /** Once its rule is gone a socket may be closed, or its kernel have taken in payload: then
      any segment without payload may leave. The marker is sent again until acknowledged. */
  predicate ClientMayEmit(c: Client, l: Link, f: Flow, seg: Segment) {
    || Idles(l.ck, f, seg)
    || (c.phase == CRuleGone && seg.flow == f && seg.payload == [])
    || (l.markerWritten && l.ck.sndUna != l.ck.sndNxt
        && seg == Segment(f, l.ck.sndUna, l.ck.rcvNxt, FLAGS_PSH_ACK, MARKER))
  }

  predicate ProxyMayEmit(q: Option<Proxy>, l: Link, f: Flow, seg: Segment) {
    || Idles(l.pk, Reverse(f), seg)
    || (q.Some? && q.value.phase == PRuleGone && seg.flow == Reverse(f) && seg.payload == [])
  }

  function Wrote(l: Link): Link {
    l.(markerWritten := true, ck := l.ck.(sndNxt := Add32(l.ck.sndNxt, 1)))
  }

  function AtProxy(l: Link, q: Option<Proxy>, seg: Segment, queued: bool, wrote: bool): Link {
    var d := ProxyDecides(q, seg, queued);
    l.(pk := KernelAfter(l.pk, d, seg), proxyWrites := TunAfter(l.proxyWrites, d, wrote))
  }

  function AtClient(l: Link, c: Client, seg: Segment, queued: bool, wrote: bool): Link {
    var d := ClientDecides(c, seg, queued);
    l.(ck := KernelAfter(l.ck, d, seg), clientWrites := TunAfter(l.clientWrites, d, wrote))
  }

  predicate LinkNext(st: System, e: Event, st': System)
    requires !e.Acts? && !e.Connect?
  {
    && LinkUp(st, e.f)
    && var f, l, c, q := e.f, st.links[e.f], ClientOf(st, e.f), SessionOf(st, st.links[e.f]);
    match e
    case AcceptConnection(n, _) =>
      l.session == "" && S.Next(st.s, StartProxy(n, f), st'.s) && st'.links == st.links[f := l.(session := n)]
    case WriteMarker(_) =>
      c.phase == CLearn && !l.markerWritten && st' == st.(links := st.links[f := Wrote(l)])
    case ClientEmits(_, seg) =>
      ClientMayEmit(c, l, f, seg) && st' == Sent(st, f, l, seg)
    case ProxyEmits(_, seg) =>
      ProxyMayEmit(q, l, f, seg) && st' == Sent(st, f, l, seg)
    case ClientInjects(_, seqNum, inner) =>
      && c.everOpen && Buildable(inner)
      && st' == Sent(st, f, l.(clientReads := l.clientReads + {inner}), Outer(f, seqNum, c.bases.fakeBase.proxySeq, inner))
    case ProxyInjects(_, seqNum, inner) =>
      && q.Some? && q.value.rawStarted && Buildable(inner)
      && st' == Sent(st, f, l.(proxyReads := l.proxyReads + {inner}), Outer(Reverse(f), seqNum, q.value.bases.fakeBase.clientSeq, inner))
    case ReachProxy(_, seg, queued, wrote) =>
      && seg in st.s.wire && seg.flow == f && (queued ==> q.Some? && q.value.queueRan)
      && st' == st.(links := st.links[f := AtProxy(l, q, seg, queued, wrote)])
    case ReachClient(_, seg, queued, wrote) =>
      && seg in st.s.wire && seg.flow == Reverse(f) && (queued ==> c.queueRan)
      && st' == st.(links := st.links[f := AtClient(l, c, seg, queued, wrote)])
  }

  /** Flows are not reused while segments of an earlier connection are about. The proxy goes
      on to its tunnel queue only after reading the marker octet from the connection. */
  predicate Next(st: System, e: Event, st': System) {
    match e
    case Acts(a) =>
      && (a.ClientDoes? || a.ProxyDoes?) && S.Next(st.s, a, st'.s) && st'.links == st.links
      && (a.ProxyDoes? && a.pa.PStartTunnel? ==>
            var f := st.s.proxies[a.n].flow; f in st.links && MARKER <= st.links[f].pk.received)
    case Connect(n, f, clientNext, proxyNext) =>
      && f !in st.links && Reverse(f) !in st.links && f != Reverse(f)
      && S.Next(st.s, StartClient(n, f), st'.s)
      && st'.links == st.links[f := NewLink(n, clientNext, proxyNext)]
    case _ => LinkNext(st, e, st')
  }

  predicate Run(states: seq<System>, events: seq<Event>) {
    && |states| == |events| + 1
    && states[0] == System(EMPTY, map[])
    && forall i | 0 <= i < |events| :: Next(states[i], events[i], states[i + 1])
  }

  // ---------- The invariant ----------

  /** The proxy session that accepted this connection is the one its client registered
      with. The proxy does not enforce it: it takes a REGISTER from anyone. */
  predicate Straight(c: Client, l: Link) {
    c.udp.registered ==> c.udp.proxyNonce == l.session
  }

  /** A side stands until it removes its rule. Its socket outlives that moment, unfiltered. */
  predicate SessionStands(q: Option<Proxy>) {
    q.Some? ==> q.value.phase != PRuleGone
  }

  predicate BothStand(c: Client, q: Option<Proxy>) {
    c.phase != CRuleGone && SessionStands(q)
  }

  predicate Shape(st: System) {
    && (forall f | f in st.links :: Reverse(f) !in st.links
          && st.links[f].client in st.s.clients && st.s.clients[st.links[f].client].flow == f
          && (st.links[f].session != "" ==> st.links[f].session in st.s.proxies && st.s.proxies[st.links[f].session].flow == f))
    && (forall n | n in st.s.clients :: st.s.clients[n].flow in st.links && st.links[st.s.clients[n].flow].client == n)
    && (forall n | n in st.s.proxies :: n != "" && st.s.proxies[n].flow in st.links && st.links[st.s.proxies[n].flow].session == n)
  }

  predicate RawStarted(q: Option<Proxy>) {
    q.Some? && q.value.rawStarted
  }

  /** Where payload on the wire comes from. */
  predicate UpSegment(l: Link, c: Client, seg: Segment) {
    || seg.payload == []
    || (seg.payload == MARKER && l.markerWritten)
    || (seg.payload in l.clientReads && c.everOpen)
  }

  predicate DownSegment(l: Link, q: Option<Proxy>, seg: Segment) {
    seg.payload == [] || (seg.payload in l.proxyReads && RawStarted(q))
  }

  predicate Accounted(st: System, seg: Segment)
    requires Shape(st)
  {
    || (seg.flow in st.links && UpSegment(st.links[seg.flow], ClientOf(st, seg.flow), seg))
    || (Reverse(seg.flow) in st.links && DownSegment(st.links[Reverse(seg.flow)], SessionOf(st, st.links[Reverse(seg.flow)]), seg))
  }

  predicate WireInv(st: System)
    requires Shape(st)
  {
    forall seg | seg in st.s.wire :: Accounted(st, seg)
  }

  /** Learning follows the marker, on any link: without a marker written nobody has learned. */
  predicate MarkerFirst(c: Client, l: Link, q: Option<Proxy>) {
    && (l.markerWritten ==> c.udp.registered)
    && (Learned(c.bases) ==> l.markerWritten)
    && (q.Some? && Learned(q.value.bases) ==> l.markerWritten)
  }

  /** The packets that reached a TUN were read from the far TUN, and reached it while the
      data plane was open. */
  predicate TunInv(l: Link, c: Client, q: Option<Proxy>) {
    && l.proxyWrites <= l.clientReads && (l.proxyWrites != {} ==> q.Some? && q.value.everOpen)
    && l.clientWrites <= l.proxyReads && (l.clientWrites != {} ==> c.everOpen)
  }

  /** While the link is straight and both rules are not removed yet, nothing but the marker octet has
      ever moved the kernels. */
  predicate Kernels(l: Link, q: Option<Proxy>) {
    var c0, c1, p0 := l.clientNext, Add32(l.clientNext, 1), l.proxyNext;
    && l.ck.sndNxt == (if l.markerWritten then c1 else c0)
    && (l.ck.sndUna == c0 || l.ck.sndUna == l.ck.sndNxt)
    && l.ck.rcvNxt == p0 && l.ck.received == [] && !l.ck.disturbed
    && l.pk.sndUna == p0 && l.pk.sndNxt == p0 && !l.pk.disturbed
    && (if l.pk.received == [] then l.pk.rcvNxt == c0 else l.markerWritten && l.pk.received == MARKER && l.pk.rcvNxt == c1)
    && (q.Some? && q.value.tunnelRule ==> l.pk.received == MARKER)
  }

  /** The payload-free segments on the wire carry the same few numbers. */
  predicate PureUp(l: Link, seg: Segment) {
    && seg.flags == FLAG_ACK && seg.ackNum == l.proxyNext
  }

  predicate PureDown(l: Link, seg: Segment) {
    && seg.flags == FLAG_ACK
    && (seg.ackNum == l.clientNext || (l.markerWritten && seg.ackNum == Add32(l.clientNext, 1)))
  }

  predicate PureWire(f: Flow, l: Link, wire: set<Segment>) {
    forall seg | seg in wire && seg.payload == [] ::
      (seg.flow == f ==> PureUp(l, seg)) && (seg.flow == Reverse(f) ==> PureDown(l, seg))
  }

  /** On any link the client's kernel sends at most the marker, and it receives nothing before
      a session sends packets down. */
  predicate Sending(l: Link, q: Option<Proxy>) {
    && l.ck.sndNxt == (if l.markerWritten then Add32(l.clientNext, 1) else l.clientNext)
    && (l.ck.sndUna == l.clientNext || l.ck.sndUna == l.ck.sndNxt)
    && (if l.proxyReads == {} then l.ck.rcvNxt == l.proxyNext else RawStarted(q))
  }

  /** So every transmission of the marker is the same segment, until a data plane comes up. */
  predicate MarkerWire(f: Flow, l: Link, c: Client, q: Option<Proxy>, wire: set<Segment>) {
    forall seg | seg in wire && seg.flow == f && seg.payload == MARKER ::
      seg == TheMarker(f, l) || c.everOpen || RawStarted(q)
  }

  predicate SameBases(f: Flow, l: Link, c: Client, q: Option<Proxy>) {
    && (Learned(c.bases) ==> c.bases == ClientLearns(TheMarker(f, l)))
    && (q.Some? && Learned(q.value.bases) ==> q.value.bases == ProxyLearns(TheMarker(f, l)))
  }

  predicate LinkInv(f: Flow, l: Link, c: Client, q: Option<Proxy>, wire: set<Segment>) {
    && MarkerFirst(c, l, q)
    && TunInv(l, c, q)
    && Sending(l, q) && MarkerWire(f, l, c, q, wire)
    && (Straight(c, l) ==> SameBases(f, l, c, q))
    && (Straight(c, l) && BothStand(c, q) ==> Kernels(l, q) && PureWire(f, l, wire))
  }

  predicate LinkInvAt(st: System, f: Flow)
    requires Shape(st) && f in st.links
  {
    LinkInv(f, st.links[f], ClientOf(st, f), SessionOf(st, st.links[f]), st.s.wire)
  }

  predicate Inv(st: System) {
    && S.Inv(st.s)
    && Shape(st)
    && WireInv(st)
    && forall f | f in st.links :: LinkInvAt(st, f)
  }

  // ---------- What the session protocol contributes ----------

  /** A client whose data plane has been open has, on a straight link, a session with its
      tunnel queue up: the filter is in place before the first tunnelled segment. */
  lemma ClientOpenMeansProxyFilter(st: System, f: Flow)
    requires S.Inv(st.s) && Shape(st) && f in st.links
    requires ClientOf(st, f).everOpen && Straight(ClientOf(st, f), st.links[f])
    ensures var q := SessionOf(st, st.links[f]);
      q.Some? && q.value.queueRan && Learned(q.value.bases) && (q.value.phase != PRuleGone ==> q.value.tunnelRule)
  {
    var n := st.links[f].client;
    assert ClientInv(n, st.s.clients[n], st.s.net);
    ClientReadyJoined(st.s, n);
    assert ProxyInv(st.links[f].session, st.s.proxies[st.links[f].session], st.s.net);
  }

  /** And the other way round. */
  lemma ProxyRawMeansClientFilter(st: System, f: Flow)
    requires S.Inv(st.s) && Shape(st) && f in st.links
    requires RawStarted(SessionOf(st, st.links[f]))
    requires Straight(ClientOf(st, f), st.links[f])
    requires MarkerFirst(ClientOf(st, f), st.links[f], SessionOf(st, st.links[f]))
    ensures var c := ClientOf(st, f);
      c.queueRan && Learned(c.bases) && (c.phase != CRuleGone ==> c.tunnelRule)
  {
    var n, p := st.links[f].client, st.links[f].session;
    assert ProxyInv(p, st.s.proxies[p], st.s.net);
    assert ClientInv(n, st.s.clients[n], st.s.net);
    ProxyReadyJoined(st.s, p);
    assert st.s.clients[n].udp.registered;
    assert MsgInv(st.s, RegisterAck(n, p));
  }

  // ---------- Session events ----------

  /** A session event changes records only by letting them grow; learning is the one thing
      to check. */
  lemma LinkInvGrows(f: Flow, l: Link, c: Client, q: Option<Proxy>, c': Client, q': Option<Proxy>, wire: set<Segment>)
    requires LinkInv(f, l, c, q, wire)
    requires ClientGrows(c, c')
    requires q.Some? == q'.Some? && (q.Some? ==> ProxyGrows(q.value, q'.value))
    requires Learned(c'.bases) && !Learned(c.bases) ==>
      l.markerWritten && (Straight(c', l) ==> c'.bases == ClientLearns(TheMarker(f, l)))
    requires q'.Some? && Learned(q'.value.bases) && !Learned(q.value.bases) ==>
      l.markerWritten && (Straight(c', l) ==> q'.value.bases == ProxyLearns(TheMarker(f, l)))
    requires q'.Some? && q'.value.tunnelRule && !q.value.tunnelRule ==> MARKER <= l.pk.received
    requires l.session == "" ==> q.None?
    ensures LinkInv(f, l, c', q', wire)
  {
  }

  lemma WireInvGrows(st: System, st': System)
    requires Shape(st) && Shape(st') && WireInv(st)
    requires S.Grows(st.s, st'.s) && st'.s.wire == st.s.wire && st'.links == st.links
    ensures WireInv(st')
  {
  }

  /** A client in its learning phase that sees a marker sees the marker of its own link. */
  lemma ClientSeesTheMarker(st: System, f: Flow, seg: Segment)
    requires Inv(st) && f in st.links && ClientOf(st, f).phase == CLearn
    requires seg in st.s.wire && seg.flow == f && IsMarker(seg)
    ensures st.links[f].markerWritten
    ensures Straight(ClientOf(st, f), st.links[f]) ==> seg == TheMarker(f, st.links[f])
  {
    var c := ClientOf(st, f);
    assert ClientInv(st.links[f].client, c, st.s.net);
    assert !c.everOpen;
    assert UpSegment(st.links[f], c, seg) && LinkInvAt(st, f);
    if Straight(c, st.links[f]) && RawStarted(SessionOf(st, st.links[f])) {
      ProxyRawMeansClientFilter(st, f);
      assert false;
    }
  }

  /** So does the session that accepted the link: a tunnelled packet that looks like a marker
      cannot be about before the session's own filter is up. */
  lemma ProxySeesTheMarker(st: System, f: Flow, seg: Segment)
    requires Inv(st) && f in st.links
    requires var q := SessionOf(st, st.links[f]); q.Some? && q.value.phase == PLearn
    requires seg in st.s.wire && seg.flow == f && IsMarker(seg)
    ensures st.links[f].markerWritten
    ensures Straight(ClientOf(st, f), st.links[f]) ==> seg == TheMarker(f, st.links[f])
  {
    var l, c, q := st.links[f], ClientOf(st, f), SessionOf(st, st.links[f]).value;
    assert ClientInv(l.client, c, st.s.net);
    assert ProxyInv(l.session, q, st.s.net);
    assert UpSegment(l, c, seg);
    if Straight(c, l) && c.everOpen {
      ClientOpenMeansProxyFilter(st, f);
      assert false;
    }
  }

  lemma ShapeGrows(st: System, st': System)
    requires Shape(st) && S.Inv(st'.s)
    requires S.Grows(st.s, st'.s) && st'.links == st.links
    requires st'.s.clients.Keys == st.s.clients.Keys && st'.s.proxies.Keys == st.s.proxies.Keys
    ensures Shape(st')
  {
  }

  /** What a client learns on a straight link is that link's marker. */
  predicate LearnedItsMarker(f: Flow, l: Link, c: Client, learned: Bases) {
    l.markerWritten && (Straight(c, l) ==> learned == ClientLearns(TheMarker(f, l)))
  }

  lemma ClientLinksKept(st: System, n: Nonce, st': System)
    requires Inv(st) && Shape(st') && S.Grows(st.s, st'.s)
    requires n in st.s.clients && n in st'.s.clients && st'.links == st.links && st'.s.wire == st.s.wire
    requires st'.s.proxies == st.s.proxies && st'.s.clients == st.s.clients[n := st'.s.clients[n]]
    requires var f := st.s.clients[n].flow; st'.s.clients[n].bases != st.s.clients[n].bases && f in st.links ==>
      LearnedItsMarker(f, st.links[f], st.s.clients[n], st'.s.clients[n].bases)
    ensures forall f | f in st'.links :: LinkInvAt(st', f)
  {
    forall f | f in st'.links ensures LinkInvAt(st', f) {
      ClientActKeepsLink(st, n, st', f);
    }
  }

  lemma ClientChangeKeeps(st: System, n: Nonce, st': System)
    requires Inv(st) && S.Inv(st'.s) && S.Grows(st.s, st'.s)
    requires n in st.s.clients && n in st'.s.clients && st'.links == st.links && st'.s.wire == st.s.wire
    requires st'.s.proxies == st.s.proxies && st'.s.clients == st.s.clients[n := st'.s.clients[n]]
    requires var f := st.s.clients[n].flow; st'.s.clients[n].bases != st.s.clients[n].bases && f in st.links ==>
      LearnedItsMarker(f, st.links[f], st.s.clients[n], st'.s.clients[n].bases)
    ensures Inv(st')
  {
    ShapeGrows(st, st');
    WireInvGrows(st, st');
    ClientLinksKept(st, n, st');
  }

  lemma ClientActKeeps(st: System, n: Nonce, a: ClientAct, st': System)
    requires Inv(st) && Next(st, Acts(ClientDoes(n, a)), st')
    ensures Inv(st')
  {
    NextKeeps(st.s, ClientDoes(n, a), st'.s);
    ClientLearningStep(st.s.clients[n], a);
    if a.SeeMarker? {
      ClientSeesTheMarker(st, st.s.clients[n].flow, a.s);
    }
    ClientChangeKeeps(st, n, st');
  }

  lemma ClientActKeepsLink(st: System, n: Nonce, st': System, f: Flow)
    requires Inv(st) && S.Grows(st.s, st'.s) && Shape(st')
    requires n in st.s.clients && n in st'.s.clients && f in st.links && st'.links == st.links && st'.s.wire == st.s.wire
    requires st'.s.proxies == st.s.proxies && st'.s.clients == st.s.clients[n := st'.s.clients[n]]
    requires st'.s.clients[n].bases != st.s.clients[n].bases && st.links[f].client == n ==>
      LearnedItsMarker(f, st.links[f], st.s.clients[n], st'.s.clients[n].bases)
    ensures LinkInvAt(st', f)
  {
    var l, q := st.links[f], SessionOf(st, st.links[f]);
    assert ClientGrows(ClientOf(st, f), ClientOf(st', f));
    LinkInvGrows(f, l, ClientOf(st, f), q, ClientOf(st', f), q, st.s.wire);
  }

  lemma ProxyChangeKeeps(st: System, n: Nonce, st': System)
    requires Inv(st) && S.Inv(st'.s) && S.Grows(st.s, st'.s)
    requires n in st.s.proxies && n in st'.s.proxies && st'.links == st.links && st'.s.wire == st.s.wire
    requires st'.s.clients == st.s.clients && st'.s.proxies == st.s.proxies[n := st'.s.proxies[n]]
    requires var f := st.s.proxies[n].flow; st'.s.proxies[n].bases != st.s.proxies[n].bases && f in st.links ==>
      && st.links[f].markerWritten
      && (Straight(ClientOf(st, f), st.links[f]) ==> st'.s.proxies[n].bases == ProxyLearns(TheMarker(f, st.links[f])))
    requires var f := st.s.proxies[n].flow;
      st'.s.proxies[n].tunnelRule && !st.s.proxies[n].tunnelRule && f in st.links ==> MARKER <= st.links[f].pk.received
    ensures Inv(st')
  {
    ShapeGrows(st, st');
    WireInvGrows(st, st');
    forall f | f in st'.links ensures LinkInvAt(st', f) {
      ProxyActKeepsLink(st, n, st', f);
    }
  }

  lemma ProxyActKeeps(st: System, n: Nonce, a: ProxyAct, st': System)
    requires Inv(st) && Next(st, Acts(ProxyDoes(n, a)), st')
    ensures Inv(st')
  {
    NextKeeps(st.s, ProxyDoes(n, a), st'.s);
    ProxyLearningStep(st.s.proxies[n], a);
    if a.PSeeMarker? {
      ProxySeesTheMarker(st, st.s.proxies[n].flow, a.s);
    }
    ProxyChangeKeeps(st, n, st');
  }

  lemma ProxyActKeepsLink(st: System, n: Nonce, st': System, f: Flow)
    requires Inv(st) && S.Grows(st.s, st'.s) && Shape(st')
    requires n in st.s.proxies && n in st'.s.proxies && f in st.links && st'.links == st.links && st'.s.wire == st.s.wire
    requires st'.s.clients == st.s.clients && st'.s.proxies == st.s.proxies[n := st'.s.proxies[n]]
    requires st'.s.proxies[n].bases != st.s.proxies[n].bases && st.links[f].session == n ==>
      && st.links[f].markerWritten
      && (Straight(ClientOf(st, f), st.links[f]) ==> st'.s.proxies[n].bases == ProxyLearns(TheMarker(f, st.links[f])))
    requires st'.s.proxies[n].tunnelRule && !st.s.proxies[n].tunnelRule && st.links[f].session == n ==> MARKER <= st.links[f].pk.received
    ensures LinkInvAt(st', f)
  {
    var l, c, q, q' := st.links[f], ClientOf(st, f), SessionOf(st, st.links[f]), SessionOf(st', st.links[f]);
    assert q.Some? ==> ProxyGrows(q.value, q'.value);
    LinkInvGrows(f, l, c, q, c, q', st.s.wire);
  }

  // ---------- Link events ----------

  predicate LinkGrows(l: Link, l': Link) {
    && l'.client == l.client && l'.session == l.session
    && l'.clientNext == l.clientNext && l'.proxyNext == l.proxyNext
    && (l.markerWritten ==> l'.markerWritten)
    && l.clientReads <= l'.clientReads && l.proxyReads <= l'.proxyReads
  }

  predicate OwnSegments(f: Flow, l: Link, c: Client, q: Option<Proxy>, more: set<Segment>) {
    forall seg | seg in more :: (seg.flow == f && UpSegment(l, c, seg)) || (seg.flow == Reverse(f) && DownSegment(l, q, seg))
  }

  /** Segments of one link mean nothing to another. */
  lemma OtherLinkKept(g: Flow, f: Flow, l: Link, c: Client, q: Option<Proxy>, wire: set<Segment>, more: set<Segment>)
    requires LinkInv(g, l, c, q, wire)
    requires g != f && g != Reverse(f)
    requires forall seg | seg in more :: seg.flow == f || seg.flow == Reverse(f)
    ensures LinkInv(g, l, c, q, wire + more)
  {
  }

  lemma WireInvUpdate(st: System, f: Flow, l': Link, more: set<Segment>, st': System)
    requires Shape(st) && WireInv(st) && f in st.links && Shape(st')
    requires st' == System(st.s.(wire := st.s.wire + more), st.links[f := l'])
    requires LinkGrows(st.links[f], l')
    requires OwnSegments(f, l', ClientOf(st, f), SessionOf(st, l'), more)
    ensures WireInv(st')
  {
    forall seg | seg in st'.s.wire ensures Accounted(st', seg) {
      assert Reverse(Reverse(seg.flow)) == seg.flow;
    }
  }

  lemma ShapeUpdate(st: System, f: Flow, l': Link, more: set<Segment>, st': System)
    requires Shape(st) && f in st.links
    requires st' == System(st.s.(wire := st.s.wire + more), st.links[f := l'])
    requires LinkGrows(st.links[f], l')
    ensures Shape(st')
  {
  }

  lemma OtherLinksKept(st: System, f: Flow, l': Link, more: set<Segment>, st': System)
    requires Inv(st) && f in st.links && Shape(st')
    requires st' == System(st.s.(wire := st.s.wire + more), st.links[f := l'])
    requires forall seg | seg in more :: seg.flow == f || seg.flow == Reverse(f)
    ensures forall g | g in st'.links && g != f :: LinkInvAt(st', g)
  {
    forall g | g in st'.links && g != f ensures LinkInvAt(st', g) {
      OtherLinkKept(g, f, st.links[g], ClientOf(st, g), SessionOf(st, st.links[g]), st.s.wire, more);
    }
  }

  /** One link replaced by one that grew, segments of its own put on the wire. */
  lemma LinkUpdateKeeps(st: System, f: Flow, l': Link, more: set<Segment>, st': System)
    requires Inv(st) && f in st.links
    requires st' == System(st.s.(wire := st.s.wire + more), st.links[f := l'])
    requires LinkGrows(st.links[f], l')
    requires OwnSegments(f, l', ClientOf(st, f), SessionOf(st, l'), more)
    requires LinkInv(f, l', ClientOf(st, f), SessionOf(st, l'), st'.s.wire)
    ensures Inv(st')
  {
    assert S.Next(st.s, WireGrows(more), st'.s);
    NextKeeps(st.s, WireGrows(more), st'.s);
    ShapeUpdate(st, f, l', more, st');
    WireInvUpdate(st, f, l', more, st');
    OtherLinksKept(st, f, l', more, st');
  }

  /** The same with nothing put on the wire. */
  lemma LinkReplaceKeeps(st: System, f: Flow, l': Link)
    requires Inv(st) && f in st.links
    requires LinkGrows(st.links[f], l')
    requires LinkInv(f, l', ClientOf(st, f), SessionOf(st, l'), st.s.wire)
    ensures Inv(st.(links := st.links[f := l']))
  {
    assert st.s.wire + {} == st.s.wire;
    LinkUpdateKeeps(st, f, l', {}, st.(links := st.links[f := l']));
  }

  /** The same with one segment put on the wire. */
  lemma SentKeeps(st: System, f: Flow, l': Link, seg: Segment)
    requires Inv(st) && f in st.links
    requires LinkGrows(st.links[f], l')
    requires (seg.flow == f && UpSegment(l', ClientOf(st, f), seg)) || (seg.flow == Reverse(f) && DownSegment(l', SessionOf(st, l'), seg))
    requires LinkInv(f, l', ClientOf(st, f), SessionOf(st, l'), st.s.wire + {seg})
    ensures Inv(Sent(st, f, l', seg))
  {
    LinkUpdateKeeps(st, f, l', {seg}, Sent(st, f, l', seg));
  }

  // ---------- What the filters and kernels do, number by number ----------

  /** A pure ACK from the client leaves the proxy's kernel as it is. */
  lemma PureUpHarmless(l: Link, q: Option<Proxy>, seg: Segment)
    requires Kernels(l, q) && PureUp(l, seg) && seg.payload == []
    ensures Takes(l.pk, seg) == l.pk
  {
  }

  /** A pure ACK from the proxy at most acknowledges the marker. */
  lemma PureDownHarmless(l: Link, q: Option<Proxy>, seg: Segment)
    requires Kernels(l, q) && PureDown(l, seg) && seg.payload == []
    ensures var k := Takes(l.ck, seg);
      k == l.ck || (l.markerWritten && k == l.ck.(sndUna := Add32(l.clientNext, 1)))
  {
  }

  /** The marker counts once, however often it arrives. */
  lemma MarkerCountsOnce(f: Flow, l: Link, q: Option<Proxy>)
    requires Kernels(l, q)
    ensures var k := Takes(l.pk, TheMarker(f, l));
      k == l.pk.(rcvNxt := Add32(l.clientNext, 1), received := MARKER)
  {
  }

  /** What an arrival does, in full: the kernel takes the segment if no rule holds it back, or
      if the queue took it in and it is an allowed control ACK; the TUN gets its payload,
      whole, if the queue took it in, the data plane has been open, the payload is one
      well-formed packet of at most 1400 octets, and the write is made. */
  lemma ArrivesAtProxy(st: System, f: Flow, seg: Segment, queued: bool, wrote: bool, st': System)
    requires LinkNext(st, ReachProxy(f, seg, queued, wrote), st')
    ensures var l, l', q := st.links[f], st'.links[f], SessionOf(st, st.links[f]);
      && st'.s == st.s && st'.links == st.links[f := l.(pk := l'.pk, proxyWrites := l'.proxyWrites)]
      && l'.pk == (if q.None? || (if queued then AllowedControlAck(seg, q.value.bases.ack) else !q.value.tunnelRule)
                   then Takes(l.pk, seg) else l.pk)
      && l'.proxyWrites == (if queued && q.value.everOpen && wrote && WellFormed(seg.payload) && |seg.payload| <= 1400
                            then l.proxyWrites + {seg.payload} else l.proxyWrites)
  {
    var q := SessionOf(st, st.links[f]);
    if queued {
      DecideExactly(seg, q.value.bases.ack, q.value.everOpen);
    }
  }

  lemma ArrivesAtClient(st: System, f: Flow, seg: Segment, queued: bool, wrote: bool, st': System)
    requires LinkNext(st, ReachClient(f, seg, queued, wrote), st')
    ensures var l, l', c := st.links[f], st'.links[f], ClientOf(st, f);
      && st'.s == st.s && st'.links == st.links[f := l.(ck := l'.ck, clientWrites := l'.clientWrites)]
      && l'.ck == (if (if queued then AllowedControlAck(seg, c.bases.ack) else !c.tunnelRule) then Takes(l.ck, seg) else l.ck)
      && l'.clientWrites == (if queued && c.everOpen && wrote && WellFormed(seg.payload) && |seg.payload| <= 1400
                             then l.clientWrites + {seg.payload} else l.clientWrites)
  {
    var c := ClientOf(st, f);
    DecideExactly(seg, c.bases.ack, c.everOpen);
  }

  /** What a kernel takes in: an acknowledgement of anything outstanding, the octets that are
      next; what came before again changes nothing, and anything else disturbs it. */
  lemma TakesExactly(k: Kernel, s: Segment)
    requires s.flags == FLAG_ACK || s.flags == FLAGS_PSH_ACK
    ensures var k', behind := Takes(k, s), (k.rcvNxt - s.seqNum) % TWO32;
      && k'.sndNxt == k.sndNxt
      && k'.sndUna == (if 0 < (s.ackNum - k.sndUna) % TWO32 <= (k.sndNxt - k.sndUna) % TWO32 then s.ackNum else k.sndUna)
      && k'.received == (if s.seqNum == k.rcvNxt then k.received + s.payload else k.received)
      && k'.rcvNxt == (if s.seqNum == k.rcvNxt then Add32(k.rcvNxt, |s.payload|) else k.rcvNxt)
      && (k'.disturbed <==> k.disturbed || (s.payload != [] && s.seqNum != k.rcvNxt && !(|s.payload| <= behind < 0x8000_0000)))
  {
    assert Add32(k.rcvNxt, 0) == k.rcvNxt && k.received + [] == k.received;
  }

  /** A segment that reaches the proxy's host, whatever it is. */
  lemma ReachProxyKeepsLink(f: Flow, l: Link, c: Client, q: Option<Proxy>, wire: set<Segment>, seg: Segment, queued: bool, wrote: bool)
    requires LinkInv(f, l, c, q, wire)
    requires seg in wire && seg.flow == f && UpSegment(l, c, seg)
    requires c.everOpen && Straight(c, l) && SessionStands(q) ==> q.Some? && q.value.tunnelRule
    requires RawStarted(q) && Straight(c, l) && SessionStands(q) ==> q.value.tunnelRule
    ensures LinkInv(f, AtProxy(l, q, seg, queued, wrote), c, q, wire)
  {
    var d := ProxyDecides(q, seg, queued);
    if q.Some? {
      DecideExactly(seg, q.value.bases.ack, q.value.everOpen);
    }
    if Straight(c, l) && BothStand(c, q) {
      if seg.payload == [] {
        PureUpHarmless(l, q, seg);
      } else if d == Accept {
        assert seg == TheMarker(f, l);
        MarkerCountsOnce(f, l, q);
      }
    }
  }

  lemma ReachProxyLink(st: System, f: Flow, seg: Segment, queued: bool, wrote: bool)
    requires Inv(st) && f in st.links && seg in st.s.wire && seg.flow == f
    ensures var l, q := st.links[f], SessionOf(st, st.links[f]);
      LinkInv(f, AtProxy(l, q, seg, queued, wrote), ClientOf(st, f), q, st.s.wire)
  {
    var l, c, q := st.links[f], ClientOf(st, f), SessionOf(st, st.links[f]);
    assert UpSegment(l, c, seg);
    if c.everOpen && Straight(c, l) {
      ClientOpenMeansProxyFilter(st, f);
    }
    if q.Some? {
      assert ProxyInv(l.session, q.value, st.s.net);
    }
    ReachProxyKeepsLink(f, l, c, q, st.s.wire, seg, queued, wrote);
  }

  lemma ReachProxyKeeps(st: System, f: Flow, seg: Segment, queued: bool, wrote: bool)
    requires Inv(st) && f in st.links && seg in st.s.wire && seg.flow == f
    ensures Inv(st.(links := st.links[f := AtProxy(st.links[f], SessionOf(st, st.links[f]), seg, queued, wrote)]))
  {
    ReachProxyLink(st, f, seg, queued, wrote);
    LinkReplaceKeeps(st, f, AtProxy(st.links[f], SessionOf(st, st.links[f]), seg, queued, wrote));
  }

  /** A segment that reaches the client's host. */
  lemma ReachClientKeepsLink(f: Flow, l: Link, c: Client, q: Option<Proxy>, wire: set<Segment>, seg: Segment, queued: bool, wrote: bool)
    requires LinkInv(f, l, c, q, wire)
    requires seg in wire && seg.flow == Reverse(f) && DownSegment(l, q, seg)
    requires RawStarted(q) && Straight(c, l) && c.phase != CRuleGone ==> c.tunnelRule
    ensures LinkInv(f, AtClient(l, c, seg, queued, wrote), c, q, wire)
  {
    DecideExactly(seg, c.bases.ack, c.everOpen);
    ReachClientSending(l, c, q, seg, queued, wrote);
    if Straight(c, l) && BothStand(c, q) {
      ReachClientKernels(f, l, c, q, wire, seg, queued, wrote);
    }
  }

  lemma ReachClientSending(l: Link, c: Client, q: Option<Proxy>, seg: Segment, queued: bool, wrote: bool)
    requires Sending(l, q) && DownSegment(l, q, seg)
    ensures Sending(AtClient(l, c, seg, queued, wrote), q)
  {
  }

  lemma ReachClientKernels(f: Flow, l: Link, c: Client, q: Option<Proxy>, wire: set<Segment>, seg: Segment, queued: bool, wrote: bool)
    requires Kernels(l, q) && PureWire(f, l, wire) && seg in wire && seg.flow == Reverse(f) && DownSegment(l, q, seg)
    requires RawStarted(q) ==> c.tunnelRule
    ensures Kernels(AtClient(l, c, seg, queued, wrote), q)
  {
    if seg.payload == [] {
      PureDownHarmless(l, q, seg);
    } else {
      assert ClientDecides(c, seg, queued) != Accept;
    }
  }

  lemma ReachClientLink(st: System, f: Flow, seg: Segment, queued: bool, wrote: bool)
    requires Inv(st) && f in st.links && seg in st.s.wire && seg.flow == Reverse(f)
    ensures var l, c := st.links[f], ClientOf(st, f);
      LinkInv(f, AtClient(l, c, seg, queued, wrote), c, SessionOf(st, l), st.s.wire)
  {
    var l, c, q := st.links[f], ClientOf(st, f), SessionOf(st, st.links[f]);
    assert Reverse(Reverse(f)) == f;
    assert DownSegment(l, q, seg);
    if q.Some? && q.value.rawStarted && Straight(c, l) {
      ProxyRawMeansClientFilter(st, f);
    }
    assert ClientInv(l.client, c, st.s.net);
    ReachClientKeepsLink(f, l, c, q, st.s.wire, seg, queued, wrote);
  }

  lemma ReachClientKeeps(st: System, f: Flow, seg: Segment, queued: bool, wrote: bool)
    requires Inv(st) && f in st.links && seg in st.s.wire && seg.flow == Reverse(f)
    ensures Inv(st.(links := st.links[f := AtClient(st.links[f], ClientOf(st, f), seg, queued, wrote)]))
  {
    ReachClientLink(st, f, seg, queued, wrote);
    LinkReplaceKeeps(st, f, AtClient(st.links[f], ClientOf(st, f), seg, queued, wrote));
  }

  lemma WriteMarkerKeepsLink(f: Flow, l: Link, c: Client, q: Option<Proxy>, wire: set<Segment>)
    requires LinkInv(f, l, c, q, wire)
    requires c.udp.registered && !l.markerWritten
    ensures LinkInv(f, Wrote(l), c, q, wire)
  {
  }

  lemma WriteMarkerKeeps(st: System, f: Flow)
    requires Inv(st) && f in st.links && ClientOf(st, f).phase == CLearn && !st.links[f].markerWritten
    ensures Inv(st.(links := st.links[f := Wrote(st.links[f])]))
  {
    assert ClientInv(st.links[f].client, ClientOf(st, f), st.s.net);
    assert LinkInvAt(st, f);
    WriteMarkerKeepsLink(f, st.links[f], ClientOf(st, f), SessionOf(st, st.links[f]), st.s.wire);
    LinkReplaceKeeps(st, f, Wrote(st.links[f]));
  }

  /** What either kernel puts on the wire has the numbers the filters were built from. */
  lemma ClientEmitsKeepsLink(f: Flow, l: Link, c: Client, q: Option<Proxy>, wire: set<Segment>, seg: Segment)
    requires LinkInv(f, l, c, q, wire)
    requires ClientMayEmit(c, l, f, seg)
    requires f != Reverse(f)
    ensures LinkInv(f, l, c, q, wire + {seg}) && seg.flow == f && UpSegment(l, c, seg)
  {
  }

  lemma ProxyEmitsKeepsLink(f: Flow, l: Link, c: Client, q: Option<Proxy>, wire: set<Segment>, seg: Segment)
    requires LinkInv(f, l, c, q, wire)
    requires ProxyMayEmit(q, l, f, seg)
    requires f != Reverse(f)
    ensures LinkInv(f, l, c, q, wire + {seg}) && seg.flow == Reverse(f) && DownSegment(l, q, seg)
  {
  }

  lemma ClientEmitsKeeps(st: System, f: Flow, seg: Segment)
    requires Inv(st) && f in st.links && ClientMayEmit(ClientOf(st, f), st.links[f], f, seg)
    ensures Inv(Sent(st, f, st.links[f], seg))
  {
    assert LinkInvAt(st, f);
    ClientEmitsKeepsLink(f, st.links[f], ClientOf(st, f), SessionOf(st, st.links[f]), st.s.wire, seg);
    SentKeeps(st, f, st.links[f], seg);
  }

  lemma ProxyEmitsKeeps(st: System, f: Flow, seg: Segment)
    requires Inv(st) && f in st.links && ProxyMayEmit(SessionOf(st, st.links[f]), st.links[f], f, seg)
    ensures Inv(Sent(st, f, st.links[f], seg))
  {
    assert LinkInvAt(st, f);
    ProxyEmitsKeepsLink(f, st.links[f], ClientOf(st, f), SessionOf(st, st.links[f]), st.s.wire, seg);
    SentKeeps(st, f, st.links[f], seg);
  }

  lemma InjectsKeepsLink(f: Flow, l: Link, c: Client, q: Option<Proxy>, wire: set<Segment>, l': Link, seg: Segment)
    requires LinkInv(f, l, c, q, wire)
    requires seg.payload != []
    requires (seg.flow == f && c.everOpen && l' == l.(clientReads := l.clientReads + {seg.payload}))
          || (seg.flow == Reverse(f) && f != Reverse(f) && RawStarted(q) && l' == l.(proxyReads := l.proxyReads + {seg.payload}))
    ensures LinkInv(f, l', c, q, wire + {seg})
  {
  }

  lemma ClientInjectsKeeps(st: System, f: Flow, seg: Segment)
    requires Inv(st) && f in st.links && ClientOf(st, f).everOpen
    requires seg.flow == f && seg.payload != []
    ensures Inv(Sent(st, f, st.links[f].(clientReads := st.links[f].clientReads + {seg.payload}), seg))
  {
    var l, c := st.links[f], ClientOf(st, f);
    var l' := l.(clientReads := l.clientReads + {seg.payload});
    assert LinkInvAt(st, f);
    InjectsKeepsLink(f, l, c, SessionOf(st, l), st.s.wire, l', seg);
    SentKeeps(st, f, l', seg);
  }

  lemma ProxyInjectsKeeps(st: System, f: Flow, seg: Segment)
    requires Inv(st) && f in st.links
    requires RawStarted(SessionOf(st, st.links[f]))
    requires seg.flow == Reverse(f) && seg.payload != []
    ensures Inv(Sent(st, f, st.links[f].(proxyReads := st.links[f].proxyReads + {seg.payload}), seg))
  {
    var l, c := st.links[f], ClientOf(st, f);
    var l' := l.(proxyReads := l.proxyReads + {seg.payload});
    assert LinkInvAt(st, f);
    InjectsKeepsLink(f, l, c, SessionOf(st, l), st.s.wire, l', seg);
    SentKeeps(st, f, l', seg);
  }

  // ---------- New clients, new sessions ----------

  /** Nothing on the wire belongs to a flow that is not a link. */
  lemma FreshFlowSilent(st: System, f: Flow, seg: Segment)
    requires Shape(st) && WireInv(st)
    requires f !in st.links && Reverse(f) !in st.links
    requires seg in st.s.wire
    ensures seg.flow != f && seg.flow != Reverse(f)
  {
    assert Reverse(Reverse(f)) == f;
  }

  lemma NewLinkInv(f: Flow, n: Nonce, clientNext: u32, proxyNext: u32, wire: set<Segment>)
    requires forall seg | seg in wire :: seg.flow != f && seg.flow != Reverse(f)
    ensures LinkInv(f, NewLink(n, clientNext, proxyNext), NewClient(n, f), None, wire)
  {
  }

  lemma ConnectKeepsShape(st: System, n: Nonce, f: Flow, l: Link, st': System)
    requires Shape(st) && f !in st.links && Reverse(f) !in st.links && f != Reverse(f) && n !in st.s.clients
    requires l.client == n && l.session == ""
    requires st' == System(st.s.(clients := st.s.clients[n := NewClient(n, f)]), st.links[f := l])
    ensures Shape(st')
  {
    forall g | g in st.links ensures g != f && Reverse(g) != f && st.links[g].client != n {
      assert Reverse(Reverse(g)) == g;
      assert st.links[g].client in st.s.clients;
    }
  }

  lemma ConnectKeepsWire(st: System, n: Nonce, f: Flow, l: Link, st': System)
    requires Shape(st) && WireInv(st) && Shape(st') && n !in st.s.clients
    requires forall seg | seg in st.s.wire :: seg.flow != f && seg.flow != Reverse(f)
    requires st' == System(st.s.(clients := st.s.clients[n := NewClient(n, f)]), st.links[f := l])
    ensures WireInv(st')
  {
    forall seg | seg in st'.s.wire ensures Accounted(st', seg) {
      assert Reverse(Reverse(seg.flow)) == seg.flow;
      assert Accounted(st, seg);
    }
  }

  /** The other links do not notice. */
  lemma ConnectKeepsOthers(st: System, n: Nonce, f: Flow, l: Link, st': System)
    requires Shape(st) && (forall g | g in st.links :: LinkInvAt(st, g)) && Shape(st') && n !in st.s.clients
    requires st' == System(st.s.(clients := st.s.clients[n := NewClient(n, f)]), st.links[f := l])
    ensures forall g | g in st.links && g != f :: LinkInvAt(st', g)
  {
    forall g | g in st.links && g != f ensures LinkInvAt(st', g) {
      assert st.links[g].client != n;
      assert ClientOf(st', g) == ClientOf(st, g) && SessionOf(st', st'.links[g]) == SessionOf(st, st.links[g]);
    }
  }

  lemma ConnectKeeps(st: System, n: Nonce, f: Flow, clientNext: u32, proxyNext: u32, st': System)
    requires Inv(st) && Next(st, Connect(n, f, clientNext, proxyNext), st')
    ensures Inv(st')
  {
    var l := NewLink(n, clientNext, proxyNext);
    NextKeeps(st.s, StartClient(n, f), st'.s);
    forall seg | seg in st.s.wire ensures seg.flow != f && seg.flow != Reverse(f) {
      FreshFlowSilent(st, f, seg);
    }
    ConnectKeepsShape(st, n, f, l, st');
    ConnectKeepsWire(st, n, f, l, st');
    ConnectKeepsOthers(st, n, f, l, st');
    NewLinkInv(f, n, clientNext, proxyNext, st.s.wire);
    assert "" !in st.s.proxies;
  }

  /** A session that accepts a connection whose client has already registered elsewhere does
      not make the link straight; otherwise it starts with nothing. */
  lemma AcceptKeepsLink(f: Flow, l: Link, c: Client, n: Nonce, wire: set<Segment>)
    requires LinkInv(f, l, c, None, wire)
    requires c.udp.registered ==> c.udp.proxyNonce != n
    ensures LinkInv(f, l.(session := n), c, Some(NewProxy(n, f)), wire)
  {
  }

  lemma AcceptKeepsShape(st: System, n: Nonce, f: Flow, st': System)
    requires Shape(st) && f in st.links && st.links[f].session == "" && GoodNonce(n) && n !in st.s.proxies
    requires st' == System(st.s.(proxies := st.s.proxies[n := NewProxy(n, f)]), st.links[f := st.links[f].(session := n)])
    ensures Shape(st')
  {
    assert forall g | g in st.links && g != f :: st.links[g].session != n;
  }

  lemma AcceptKeepsWire(st: System, n: Nonce, f: Flow, st': System)
    requires Shape(st) && WireInv(st) && f in st.links && st.links[f].session == "" && Shape(st')
    requires st' == System(st.s.(proxies := st.s.proxies[n := NewProxy(n, f)]), st.links[f := st.links[f].(session := n)])
    ensures WireInv(st')
  {
    assert "" !in st.s.proxies;
    forall seg | seg in st'.s.wire ensures Accounted(st', seg) {
      if !(seg.flow in st.links && UpSegment(st.links[seg.flow], ClientOf(st, seg.flow), seg)) {
        assert DownSegment(st.links[Reverse(seg.flow)], SessionOf(st, st.links[Reverse(seg.flow)]), seg);
      }
    }
  }

  /** A client that has registered already has done so with an older session. */
  lemma RegisteredElsewhere(st: System, f: Flow, n: Nonce)
    requires Inv(st) && f in st.links && n !in st.s.proxies
    ensures ClientOf(st, f).udp.registered ==> ClientOf(st, f).udp.proxyNonce != n
  {
    var k, c := st.links[f].client, ClientOf(st, f);
    assert ClientInv(k, c, st.s.net);
    if c.udp.registered {
      assert MsgInv(st.s, RegisterAck(k, c.udp.proxyNonce));
    }
  }

  lemma AcceptKeepsOthers(st: System, n: Nonce, f: Flow, st': System)
    requires Shape(st) && (forall g | g in st.links :: LinkInvAt(st, g)) && f in st.links && Shape(st') && n !in st.s.proxies
    requires st' == System(st.s.(proxies := st.s.proxies[n := NewProxy(n, f)]), st.links[f := st.links[f].(session := n)])
    requires n != ""
    ensures forall g | g in st.links && g != f :: LinkInvAt(st', g)
  {
    forall g | g in st.links && g != f ensures LinkInvAt(st', g) {
      assert st.links[g].session != n;
      assert ClientOf(st', g) == ClientOf(st, g) && SessionOf(st', st'.links[g]) == SessionOf(st, st.links[g]);
    }
  }

  lemma AcceptKeeps(st: System, n: Nonce, f: Flow, st': System)
    requires Inv(st) && LinkNext(st, AcceptConnection(n, f), st')
    ensures Inv(st')
  {
    NextKeeps(st.s, StartProxy(n, f), st'.s);
    AcceptKeepsShape(st, n, f, st');
    AcceptKeepsWire(st, n, f, st');
    RegisteredElsewhere(st, f, n);
    AcceptKeepsLink(f, st.links[f], ClientOf(st, f), n, st.s.wire);
    AcceptKeepsOthers(st, n, f, st');
  }

  // ---------- Runs ----------

  lemma LinkEventKeeps(st: System, e: Event, st': System)
    requires Inv(st) && !e.Acts? && !e.Connect? && !e.AcceptConnection? && LinkNext(st, e, st')
    ensures Inv(st')
  {
    match e
    case WriteMarker(f) => WriteMarkerKeeps(st, f);
    case ClientEmits(f, seg) => ClientEmitsKeeps(st, f, seg);
    case ProxyEmits(f, seg) => ProxyEmitsKeeps(st, f, seg);
    case ClientInjects(f, seqNum, inner) =>
      ClientInjectsKeeps(st, f, Outer(f, seqNum, ClientOf(st, f).bases.fakeBase.proxySeq, inner));
    case ProxyInjects(f, seqNum, inner) =>
      ProxyInjectsKeeps(st, f, Outer(Reverse(f), seqNum, SessionOf(st, st.links[f]).value.bases.fakeBase.clientSeq, inner));
    case ReachProxy(f, seg, queued, wrote) => ReachProxyKeeps(st, f, seg, queued, wrote);
    case ReachClient(f, seg, queued, wrote) => ReachClientKeeps(st, f, seg, queued, wrote);
  }

  lemma ActsKeeps(st: System, a: S.Event, st': System)
    requires Inv(st) && Next(st, Acts(a), st')
    ensures Inv(st')
  {
    if a.ClientDoes? {
      ClientActKeeps(st, a.n, a.ca, st');
    } else {
      ProxyActKeeps(st, a.n, a.pa, st');
    }
  }

  /** Every event, on every reachable state, keeps the invariant. */
  lemma SystemNextKeeps(st: System, e: Event, st': System)
    requires Inv(st) && Next(st, e, st')
    ensures Inv(st')
  {
    match e
    case Acts(a) => ActsKeeps(st, a, st');
    case Connect(n, f, clientNext, proxyNext) => ConnectKeeps(st, n, f, clientNext, proxyNext, st');
    case AcceptConnection(n, f) => AcceptKeeps(st, n, f, st');
    case _ => LinkEventKeeps(st, e, st');
  }

  lemma SystemRunKeeps(states: seq<System>, events: seq<Event>, i: nat)
    requires Run(states, events)
    requires i < |states|
    ensures Inv(states[i])
  {
    forall k | 0 <= k < |events| && Inv(states[k]) ensures Inv(states[k + 1]) {
      SystemNextKeeps(states[k], events[k], states[k + 1]);
    }
    Along(seq(|states|, k requires 0 <= k < |states| => Inv(states[k])), i);
  }

  /** The hidden connection stands still. At every point of every run, on a straight link
      whose two sides have not removed their rules: the proxy's kernel has sent nothing and
      received at most the marker, the client's has sent at most the marker and received
      nothing; and once a side has learned, its kernel's next-send and next-receive numbers
      are its fake bases. */
  lemma HiddenConnectionStandsStill(states: seq<System>, events: seq<Event>, i: nat, f: Flow)
    requires Run(states, events) && i < |states| && f in states[i].links
    requires LinkUp(states[i], f)
    requires var st := states[i];
      Straight(ClientOf(st, f), st.links[f]) && BothStand(ClientOf(st, f), SessionOf(st, st.links[f]))
    ensures var st := states[i]; var l, c, q := st.links[f], ClientOf(st, f), SessionOf(st, st.links[f]);
      && l.ck.received == [] && !l.ck.disturbed && !l.pk.disturbed
      && (l.pk.received == [] || l.pk.received == MARKER)
      && l.pk.sndNxt == l.proxyNext && l.ck.rcvNxt == l.proxyNext
      && (Learned(c.bases) ==> l.ck.sndNxt == c.bases.fakeBase.clientSeq && l.ck.rcvNxt == c.bases.fakeBase.proxySeq)
      && (q.Some? && q.value.tunnelRule ==>
            l.pk.rcvNxt == q.value.bases.fakeBase.clientSeq && l.pk.sndNxt == q.value.bases.fakeBase.proxySeq)
  {
    SystemRunKeeps(states, events, i);
    var st := states[i];
    var q := SessionOf(st, st.links[f]);
    if q.Some? {
      assert ProxyInv(st.links[f].session, q.value, st.s.net);
    }
  }

  /** And on such a link the filters let this connection's own idle traffic through. Whatever
      the client's kernel sends when idle passes a proxy filter that has learned; what the
      proxy's kernel sends when idle passes a client filter that has learned if and only if
      the marker has arrived, since until then it acknowledges one number less. */
  lemma IdleTrafficPasses(states: seq<System>, events: seq<Event>, i: nat, f: Flow, seg: Segment)
    requires Run(states, events) && i < |states| && f in states[i].links
    requires LinkUp(states[i], f)
    requires var st := states[i];
      Straight(ClientOf(st, f), st.links[f]) && BothStand(ClientOf(st, f), SessionOf(st, st.links[f]))
    ensures var st := states[i]; var l, c, q := st.links[f], ClientOf(st, f), SessionOf(st, st.links[f]);
      && (Idles(l.ck, f, seg) && q.Some? && Learned(q.value.bases) ==> AllowedControlAck(seg, q.value.bases.ack))
      && (Idles(l.pk, Reverse(f), seg) && Learned(c.bases) ==>
            (AllowedControlAck(seg, c.bases.ack) <==> l.pk.received == MARKER))
  {
    SystemRunKeeps(states, events, i);
    var st := states[i];
    var l, c, q := st.links[f], ClientOf(st, f), SessionOf(st, st.links[f]);
    assert LinkInv(f, l, c, q, st.s.wire);
    if q.Some? && Learned(q.value.bases) && Idles(l.ck, f, seg) {
      ClientIdlePasses(f, l, q, seg);
    }
    if Learned(c.bases) && Idles(l.pk, Reverse(f), seg) {
      ProxyIdlePasses(f, l, q, seg);
    }
  }

  lemma ClientIdlePasses(f: Flow, l: Link, q: Option<Proxy>, seg: Segment)
    requires Kernels(l, q) && l.markerWritten && Idles(l.ck, f, seg)
    ensures AllowedControlAck(seg, ProxyLearns(TheMarker(f, l)).ack)
  {
  }

  lemma ProxyIdlePasses(f: Flow, l: Link, q: Option<Proxy>, seg: Segment)
    requires Kernels(l, q) && Idles(l.pk, Reverse(f), seg)
    ensures AllowedControlAck(seg, ClientLearns(TheMarker(f, l)).ack) <==> l.pk.received == MARKER
  {
    assert Add32(l.clientNext, 1) != l.clientNext;
  }

  /** The filter alone holds the kernel, whatever arrives: no allowed segment, forged or
      stray, moves the next-send or next-receive number or delivers an octet. */
  lemma FilterHoldsKernel(k: Kernel, seg: Segment, ack: ControlAck)
    requires AllowedControlAck(seg, ack)
    ensures Takes(k, seg) == k.(sndUna := Takes(k, seg).sndUna)
  {
  }

  /** Same next-send and next-receive numbers, same octets received. */
  predicate StandsStill(k: Kernel, k': Kernel) {
    k'.sndNxt == k.sndNxt && k'.rcvNxt == k.rcvNxt && k'.received == k.received
  }

  predicate ClientFiltered(st: System, f: Flow) {
    LinkUp(st, f) && ClientOf(st, f).tunnelRule
  }

  predicate ProxyFiltered(st: System, f: Flow) {
    f in st.links && var q := SessionOf(st, st.links[f]); q.Some? && q.value.tunnelRule
  }

  lemma AtProxyStandsStill(l: Link, q: Option<Proxy>, seg: Segment, queued: bool, wrote: bool)
    requires q.Some? && q.value.tunnelRule
    ensures StandsStill(l.pk, AtProxy(l, q, seg, queued, wrote).pk)
  {
    if ProxyDecides(q, seg, queued) == Accept {
      DecideExactly(seg, q.value.bases.ack, q.value.everOpen);
      FilterHoldsKernel(l.pk, seg, q.value.bases.ack);
    }
  }

  lemma AtClientStandsStill(l: Link, c: Client, seg: Segment, queued: bool, wrote: bool)
    requires c.tunnelRule
    ensures StandsStill(l.ck, AtClient(l, c, seg, queued, wrote).ck)
  {
    if ClientDecides(c, seg, queued) == Accept {
      DecideExactly(seg, c.bases.ack, c.everOpen);
      FilterHoldsKernel(l.ck, seg, c.bases.ack);
    }
  }

  /** What the records say about a link on which an event may act. */
  predicate Ready(st: System, f: Flow)
    requires LinkUp(st, f)
  {
    && (ClientOf(st, f).tunnelRule ==> ClientOf(st, f).phase != CLearn)
    && (SessionOf(st, st.links[f]).Some? ==> st.links[f].session != "")
  }

  lemma InvReady(st: System, f: Flow)
    requires Inv(st) && f in st.links
    ensures LinkUp(st, f) && Ready(st, f)
  {
    assert ClientInv(st.links[f].client, ClientOf(st, f), st.s.net);
  }

  predicate UnderFilter(st: System, st': System, f: Flow)
    requires f in st.links && f in st'.links
  {
    && (ClientFiltered(st, f) ==> StandsStill(st.links[f].ck, st'.links[f].ck))
    && (ProxyFiltered(st, f) ==> StandsStill(st.links[f].pk, st'.links[f].pk))
  }

  /** One event under a tunnel rule, on any link, straight or not: an arrival, then the rest. */
  lemma ArrivalUnderFilter(st: System, e: Event, st': System, f: Flow)
    requires (e.ReachProxy? || e.ReachClient?) && LinkNext(st, e, st') && f in st.links
    ensures f in st'.links && UnderFilter(st, st', f)
  {
    var l, c, q := st.links[e.f], ClientOf(st, e.f), SessionOf(st, st.links[e.f]);
    match e
    case ReachProxy(_, seg, queued, wrote) =>
      if ProxyFiltered(st, e.f) {
        AtProxyStandsStill(l, q, seg, queued, wrote);
      }
    case ReachClient(_, seg, queued, wrote) =>
      if c.tunnelRule {
        AtClientStandsStill(l, c, seg, queued, wrote);
      }
  }

  lemma LinkEventUnderFilter(st: System, e: Event, st': System, f: Flow)
    requires !e.Acts? && !e.Connect? && !e.ReachProxy? && !e.ReachClient?
    requires LinkNext(st, e, st') && Ready(st, e.f) && f in st.links
    ensures f in st'.links && UnderFilter(st, st', f)
  {
  }

  lemma OtherEventUnderFilter(st: System, e: Event, st': System, f: Flow)
    requires (e.Acts? || e.Connect?) && Next(st, e, st') && f in st.links
    ensures f in st'.links && UnderFilter(st, st', f)
  {
  }

  lemma StepUnderFilter(states: seq<System>, events: seq<Event>, i: nat, f: Flow)
    requires Run(states, events) && i < |events| && f in states[i].links
    ensures f in states[i + 1].links && UnderFilter(states[i], states[i + 1], f)
  {
    SystemRunKeeps(states, events, i);
    var st, e, st' := states[i], events[i], states[i + 1];
    if e.Acts? || e.Connect? {
      OtherEventUnderFilter(st, e, st', f);
    } else if e.ReachProxy? || e.ReachClient? {
      ArrivalUnderFilter(st, e, st', f);
    } else {
      InvReady(st, e.f);
      LinkEventUnderFilter(st, e, st', f);
    }
  }

  /** Whatever else happens, and whoever else is about: over any stretch of any run during
      which a side's tunnel rule stays in place, that side's kernel stands still. */
  lemma FilteredKernelsStandStill(states: seq<System>, events: seq<Event>, i: nat, j: nat, f: Flow)
    requires Run(states, events) && i <= j < |states| && f in states[i].links
    ensures f in states[j].links
    ensures (forall k | i <= k < j :: ClientFiltered(states[k], f)) ==> StandsStill(states[i].links[f].ck, states[j].links[f].ck)
    ensures (forall k | i <= k < j :: ProxyFiltered(states[k], f)) ==> StandsStill(states[i].links[f].pk, states[j].links[f].pk)
  {
    forall k | 0 <= k < |events| && f in states[k].links
      ensures f in states[k + 1].links && UnderFilter(states[k], states[k + 1], f)
    {
      StepUnderFilter(states, events, k, f);
    }
    StepsAddUp(states, i, j, f);
  }

  lemma {:induction false} StepsAddUp(states: seq<System>, i: nat, j: nat, f: Flow)
    requires i <= j < |states| && f in states[i].links
    requires forall k | i <= k < j && f in states[k].links :: f in states[k + 1].links && UnderFilter(states[k], states[k + 1], f)
    ensures f in states[j].links
    ensures (forall k | i <= k < j :: ClientFiltered(states[k], f)) ==> StandsStill(states[i].links[f].ck, states[j].links[f].ck)
    ensures (forall k | i <= k < j :: ProxyFiltered(states[k], f)) ==> StandsStill(states[i].links[f].pk, states[j].links[f].pk)
    decreases j
  {
    if i < j {
      StepsAddUp(states, i, j - 1, f);
    }
  }

  predicate AgreesIffSameConnection(st: System, p: Nonce)
    requires p in st.s.proxies
  {
    var q := st.s.proxies[p];
    && q.udp.clientNonce in st.s.clients
    && var c := st.s.clients[q.udp.clientNonce];
    (Mirrored(c.bases, q.bases) <==> c.flow == q.flow)
  }

  lemma BasesAgree(st: System, p: Nonce)
    requires Inv(st) && p in st.s.proxies
    requires st.s.proxies[p].udp.readyDone
    ensures AgreesIffSameConnection(st, p)
  {
    var q := st.s.proxies[p];
    assert ProxyInv(p, q, st.s.net);
    ProxyReadyJoined(st.s, p);
    var n := q.udp.clientNonce;
    var c := st.s.clients[n];
    assert ClientInv(n, c, st.s.net);
    assert Reverse(Reverse(c.flow)) == c.flow && Reverse(Reverse(q.flow)) == q.flow;
    if c.flow == q.flow {
      var f := c.flow;
      assert LinkInvAt(st, f);
      MirroredIffSameNumbers(TheMarker(f, st.links[f]), TheMarker(f, st.links[f]));
    }
  }

  /** From when a proxy session is done with the handshake, the client it names has the same
      real and fake bases and the mirrored filter if and only if the connection the session
      accepted is that client's. Which transmission of the marker either side saw, and when,
      does not matter. */
  lemma BasesAgreeIffSameConnection(states: seq<System>, events: seq<Event>, i: nat, p: Nonce)
    requires Run(states, events) && i < |states| && p in states[i].s.proxies
    requires states[i].s.proxies[p].udp.readyDone
    ensures AgreesIffSameConnection(states[i], p)
  {
    SystemRunKeeps(states, events, i);
    BasesAgree(states[i], p);
  }

  /** Tunnel integrity, on every link, straight or not: each packet written to one TUN was
      read from the far TUN, octet for octet, and none was written before the local data
      plane opened. */
  lemma TunnelIntegrity(states: seq<System>, events: seq<Event>, i: nat, f: Flow)
    requires Run(states, events) && i < |states| && f in states[i].links
    requires LinkUp(states[i], f)
    ensures var st := states[i]; var l, c, q := st.links[f], ClientOf(st, f), SessionOf(st, st.links[f]);
      && l.proxyWrites <= l.clientReads && (l.proxyWrites != {} ==> q.Some? && q.value.everOpen)
      && l.clientWrites <= l.proxyReads && (l.clientWrites != {} ==> c.everOpen)
  {
    SystemRunKeeps(states, events, i);
    var st := states[i];
    assert LinkInvAt(st, f);
  }
}
