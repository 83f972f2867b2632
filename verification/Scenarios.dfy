/** Runs that exist. The theorems about every run would hold of a system that can do nothing;
    here are runs in which a session comes up on both sides, and runs that show what fails
    without the conditions those theorems carry. */
module Scenarios {
  import opened Bytes
  import opened Ipv4
  import opened Messages
  import opened OuterPacket
  import opened Learning
  import opened S = Session
  import opened T = Tunnel
  import C = ClientUdp
  import P = ProxyUdp

  const SOMEWHERE := P.Address(0, 0)

  ghost predicate RunTo(states: seq<System>, events: seq<T.Event>, st: System) {
    T.Run(states, events) && states[|events|] == st
  }

  ghost predicate Reachable(st: System) {
    exists states, events :: RunTo(states, events, st)
  }

  lemma Step(st: System, e: T.Event, st': System)
    requires Reachable(st) && T.Next(st, e, st')
    ensures Reachable(st')
  {
    var states, events :| RunTo(states, events, st);
    var longer, more := states + [st'], events + [e];
    forall i | 0 <= i < |more| ensures T.Next(longer[i], more[i], longer[i + 1]) {
      if i < |events| {
        assert longer[i] == states[i] && longer[i + 1] == states[i + 1];
      }
    }
    assert RunTo(longer, more, st');
  }

  lemma Start()
    ensures Reachable(System(EMPTY, map[]))
  {
    assert RunTo([System(EMPTY, map[])], [], System(EMPTY, map[]));
  }

  // ---------- One act of one endpoint ----------

  /** Everything but one client record and more messages is as before. */
  predicate OnlyClient(st: System, n: Nonce, c: Client, st': System) {
    && st'.links == st.links && st'.s.wire == st.s.wire && st'.s.proxies == st.s.proxies
    && st'.s.clients == st.s.clients[n := c] && st.s.net <= st'.s.net
  }

  predicate OnlyProxy(st: System, n: Nonce, p: Proxy, st': System) {
    && st'.links == st.links && st'.s.wire == st.s.wire && st'.s.clients == st.s.clients
    && st'.s.proxies == st.s.proxies[n := p] && st.s.net <= st'.s.net
  }

  lemma ClientMoves(st: System, n: Nonce, a: ClientAct) returns (st': System)
    requires Reachable(st) && n in st.s.clients && ClientCan(st.s, a) && ClientStep(st.s.clients[n], a).Moved?
    ensures Reachable(st') && OnlyClient(st, n, ClientStep(st.s.clients[n], a).next, st')
    ensures ClientStep(st.s.clients[n], a).out <= st'.s.net
  {
    var o := ClientStep(st.s.clients[n], a);
    st' := System(st.s.(clients := st.s.clients[n := o.next], net := st.s.net + o.out), st.links);
    Step(st, Acts(ClientDoes(n, a)), st');
  }

  lemma ProxyMoves(st: System, n: Nonce, a: ProxyAct) returns (st': System)
    requires Reachable(st) && n in st.s.proxies && ProxyCan(st.s, a) && ProxyStep(st.s.proxies[n], a).Moved?
    requires a.PStartTunnel? ==> var f := st.s.proxies[n].flow; f in st.links && MARKER <= st.links[f].pk.received
    ensures Reachable(st') && OnlyProxy(st, n, ProxyStep(st.s.proxies[n], a).next, st')
    ensures ProxyStep(st.s.proxies[n], a).out <= st'.s.net
  {
    var o := ProxyStep(st.s.proxies[n], a);
    st' := System(st.s.(proxies := st.s.proxies[n := o.next], net := st.s.net + o.out), st.links);
    Step(st, Acts(ProxyDoes(n, a)), st');
  }

  // ---------- Phases ----------

  /** A client that holds `p` and is about to learn; one that waits for READY_ACK; a session
      that holds `n` and is about to learn. */
  function LearningClient(n: Nonce, f: Flow, p: Nonce): Client {
    NewClient(n, f).(udp := C.Fresh(n).(proxyNonce := p, registered := true, learnReady := true), phase := CLearn)
  }

  function TunnellingClient(n: Nonce, f: Flow, p: Nonce, seg: Segment): Client {
    LearningClient(n, f, p).(bases := ClientLearns(seg), tunnelRule := true, queueReady := true, queueRan := true, phase := CHandshake)
  }

  function LearningProxy(p: Nonce, f: Flow, n: Nonce): Proxy {
    NewProxy(p, f).(udp := P.Fresh(p).(clientNonce := n, peer := Some(SOMEWHERE), registered := true), phase := PLearn)
  }

  function TunnellingProxy(p: Nonce, f: Flow, n: Nonce, seg: Segment): Proxy {
    LearningProxy(p, f, n).(
      udp := P.Fresh(p).(clientNonce := n, peer := Some(SOMEWHERE), registered := true, clientReady := true),
      bases := ProxyLearns(seg), tunnelRule := true, queueReady := true, queueRan := true, phase := PHandshake)
  }

  lemma ClientConnects(st: System, n: Nonce, f: Flow, clientNext: u32, proxyNext: u32) returns (st': System)
    requires Reachable(st) && GoodNonce(n) && n !in st.s.clients
    requires f !in st.links && Reverse(f) !in st.links && f != Reverse(f)
    ensures Reachable(st') && Register(n) in st'.s.net && st.s.net <= st'.s.net && st'.s.wire == st.s.wire
    ensures st'.s.clients == st.s.clients[n := NewClient(n, f)] && st'.s.proxies == st.s.proxies
    ensures st'.links == st.links[f := NewLink(n, clientNext, proxyNext)]
  {
    var one := System(st.s.(clients := st.s.clients[n := NewClient(n, f)]), st.links[f := NewLink(n, clientNext, proxyNext)]);
    Step(st, Connect(n, f, clientNext, proxyNext), one);
    st' := ClientMoves(one, n, SendRegister);
  }

  lemma ProxyAccepts(st: System, p: Nonce, f: Flow) returns (st': System)
    requires Reachable(st) && GoodNonce(p) && p !in st.s.proxies && LinkUp(st, f) && st.links[f].session == ""
    ensures Reachable(st') && st'.s == st.s.(proxies := st.s.proxies[p := NewProxy(p, f)])
    ensures st'.links == st.links[f := st.links[f].(session := p)]
  {
    st' := System(st.s.(proxies := st.s.proxies[p := NewProxy(p, f)]), st.links[f := st.links[f].(session := p)]);
    Step(st, AcceptConnection(p, f), st');
  }

  /** The session takes the first REGISTER it hears, from whichever client. */
  lemma ProxySetsUp(st: System, p: Nonce, f: Flow, n: Nonce) returns (st': System)
    requires Reachable(st) && p in st.s.proxies && st.s.proxies[p] == NewProxy(p, f) && Register(n) in st.s.net
    ensures Reachable(st') && OnlyProxy(st, p, LearningProxy(p, f, n), st')
    ensures RegisterAck(n, p) in st'.s.net && LearnReady(n, p) in st'.s.net
  {
    var one := ProxyMoves(st, p, PTakeRegister(Register(n), SOMEWHERE));
    st' := ProxyMoves(one, p, PSendLearnReady);
  }

  lemma ClientGetsReady(st: System, n: Nonce, f: Flow, p: Nonce) returns (st': System)
    requires Reachable(st) && n in st.s.clients && st.s.clients[n] == NewClient(n, f)
    requires RegisterAck(n, p) in st.s.net && LearnReady(n, p) in st.s.net
    ensures Reachable(st') && OnlyClient(st, n, LearningClient(n, f, p), st')
  {
    var one := ClientMoves(st, n, TakeRegister(RegisterAck(n, p)));
    var two := ClientMoves(one, n, Hear(LearnReady(n, p)));
    st' := ClientMoves(two, n, SeeLearnReady);
  }

  /** The marker is written and leaves; nothing has arrived yet. */
  lemma ClientSendsMarker(st: System, n: Nonce, f: Flow, p: Nonce) returns (st': System)
    requires Reachable(st) && n in st.s.clients && st.s.clients[n] == LearningClient(n, f, p)
    requires f in st.links && st.links[f].client == n && !st.links[f].markerWritten
    requires st.links[f].ck == NewLink(n, st.links[f].clientNext, st.links[f].proxyNext).ck
    ensures Reachable(st') && st'.s == st.s.(wire := st.s.wire + {TheMarker(f, st.links[f])})
    ensures st'.links == st.links[f := Wrote(st.links[f])]
  {
    var l, seg := st.links[f], TheMarker(f, st.links[f]);
    var one := st.(links := st.links[f := Wrote(l)]);
    Step(st, WriteMarker(f), one);
    assert Add32(l.clientNext, 1) != l.clientNext;
    st' := Sent(one, f, Wrote(l), seg);
    assert one.links[f := Wrote(l)] == one.links;
    Step(one, ClientEmits(f, seg), st');
  }

  lemma ClientStartsTunnel(st: System, n: Nonce, f: Flow, p: Nonce, seg: Segment) returns (st': System)
    requires Reachable(st) && n in st.s.clients && st.s.clients[n] == LearningClient(n, f, p)
    requires seg in st.s.wire && seg.flow == f && IsMarker(seg)
    ensures Reachable(st') && OnlyClient(st, n, TunnellingClient(n, f, p, seg), st') && ClientReady(n) in st'.s.net
  {
    var one := ClientMoves(st, n, SeeMarker(seg));
    var two := ClientMoves(one, n, StartTunnel);
    var three := ClientMoves(two, n, QueueUp);
    var four := ClientMoves(three, n, BeginHandshake);
    st' := ClientMoves(four, n, SendReady);
  }

  lemma MarkerTaken(f: Flow, l: Link, n: Nonce)
    requires l.pk == NewLink(n, l.clientNext, l.proxyNext).pk
    ensures Takes(l.pk, TheMarker(f, l)) == Kernel(l.proxyNext, l.proxyNext, Add32(l.clientNext, 1), MARKER, false)
  {
    assert [] + MARKER == MARKER;
  }

  lemma MarkerArrives(st: System, f: Flow, p: Nonce, n: Nonce, seg: Segment) returns (st': System)
    requires Reachable(st) && LinkUp(st, f) && st.links[f].session == p
    requires p in st.s.proxies && st.s.proxies[p] == LearningProxy(p, f, n)
    requires seg in st.s.wire && seg == TheMarker(f, st.links[f])
    requires st.links[f].pk == NewLink(n, st.links[f].clientNext, st.links[f].proxyNext).pk
    ensures Reachable(st') && st'.s == st.s
    ensures var l := st.links[f];
      st'.links == st.links[f := l.(pk := Kernel(l.proxyNext, l.proxyNext, Add32(l.clientNext, 1), MARKER, false))]
  {
    var l, q := st.links[f], SessionOf(st, st.links[f]);
    MarkerTaken(f, l, n);
    st' := st.(links := st.links[f := AtProxy(l, q, seg, false, false)]);
    Step(st, ReachProxy(f, seg, false, false), st');
  }

  lemma ProxyStartsTunnel(st: System, p: Nonce, f: Flow, n: Nonce, seg: Segment) returns (st': System)
    requires Reachable(st) && p in st.s.proxies && st.s.proxies[p] == LearningProxy(p, f, n)
    requires seg in st.s.wire && seg.flow == f && IsMarker(seg) && ClientReady(n) in st.s.net
    requires f in st.links && st.links[f].pk.received == MARKER
    ensures Reachable(st') && OnlyProxy(st, p, TunnellingProxy(p, f, n, seg), st') && ReadyAck(n, p) in st'.s.net
  {
    var one := ProxyMoves(st, p, PSeeMarker(seg));
    var two := ProxyMoves(one, p, PStartTunnel);
    var three := ProxyMoves(two, p, PQueueUp);
    var four := ProxyMoves(three, p, PBeginHandshake);
    var five := ProxyMoves(four, p, PHear(ClientReady(n), SOMEWHERE, true));
    st' := ProxyMoves(five, p, PSendReadyAck);
  }

  function AckingClient(n: Nonce, f: Flow, p: Nonce, seg: Segment): Client {
    var c := TunnellingClient(n, f, p, seg);
    c.(udp := c.udp.(readyAck := true), phase := CStartAck(1))
  }

  lemma ClientAcks(st: System, n: Nonce, f: Flow, p: Nonce, seg: Segment) returns (st': System)
    requires Reachable(st) && n in st.s.clients && st.s.clients[n] == TunnellingClient(n, f, p, seg)
    requires ReadyAck(n, p) in st.s.net
    ensures Reachable(st') && OnlyClient(st, n, AckingClient(n, f, p, seg), st') && StartAck(p) in st'.s.net
  {
    var one := ClientMoves(st, n, Hear(ReadyAck(n, p)));
    var two := ClientMoves(one, n, BeginStartAck);
    st' := ClientMoves(two, n, SendStartAck);
  }

  /** Both sides with their data planes open. */
  function OpenClient(n: Nonce, f: Flow, p: Nonce, seg: Segment): Client {
    var c := AckingClient(n, f, p, seg);
    c.(udp := c.udp.(readyDone := true), dataPlane := true, everOpen := true, phase := CData)
  }

  function OpenProxy(p: Nonce, f: Flow, n: Nonce, seg: Segment): Proxy {
    var q := TunnellingProxy(p, f, n, seg);
    q.(udp := q.udp.(startAck := true, readyDone := true), rawStarted := true, dataPlane := true, everOpen := true, phase := PData)
  }

  lemma ClientOpens(st: System, n: Nonce, f: Flow, p: Nonce, seg: Segment) returns (st': System)
    requires Reachable(st) && n in st.s.clients && st.s.clients[n] == TunnellingClient(n, f, p, seg)
    requires ReadyAck(n, p) in st.s.net
    ensures Reachable(st') && OnlyClient(st, n, OpenClient(n, f, p, seg), st') && StartAck(p) in st'.s.net
  {
    var one := ClientAcks(st, n, f, p, seg);
    var two := ClientMoves(one, n, SendStartAck);
    var three := ClientMoves(two, n, SendStartAck);
    var four := ClientMoves(three, n, FinishHandshake);
    st' := ClientMoves(four, n, OpenData);
  }

  lemma ProxyOpens(st: System, p: Nonce, f: Flow, n: Nonce, seg: Segment) returns (st': System)
    requires Reachable(st) && p in st.s.proxies && st.s.proxies[p] == TunnellingProxy(p, f, n, seg)
    requires StartAck(p) in st.s.net
    ensures Reachable(st') && OnlyProxy(st, p, OpenProxy(p, f, n, seg), st')
  {
    var one := ProxyMoves(st, p, PHear(StartAck(p), SOMEWHERE, true));
    var two := ProxyMoves(one, p, PFinishHandshake);
    var three := ProxyMoves(two, p, PStartRaw);
    st' := ProxyMoves(three, p, POpenData);
  }

  // ---------- Runs ----------

  /** A client and a session of its own, up to the point where the client has its filter in
      place and its marker is still on the way. */
  lemma UpToMarker(n: Nonce, p: Nonce, f: Flow, clientNext: u32, proxyNext: u32) returns (st: System)
    requires GoodNonce(n) && GoodNonce(p) && f != Reverse(f)
    ensures Reachable(st)
    ensures var l := Wrote(NewLink(n, clientNext, proxyNext)).(session := p);
      && f in st.links && st.links[f] == l && TheMarker(f, l) in st.s.wire && ClientReady(n) in st.s.net
      && n in st.s.clients && st.s.clients[n] == TunnellingClient(n, f, p, TheMarker(f, l))
      && p in st.s.proxies && st.s.proxies[p] == LearningProxy(p, f, n)
  {
    Start();
    var s1 := ClientConnects(System(EMPTY, map[]), n, f, clientNext, proxyNext);
    var s2 := ProxyAccepts(s1, p, f);
    var s3 := ProxySetsUp(s2, p, f, n);
    var s4 := ClientGetsReady(s3, n, f, p);
    var s5 := ClientSendsMarker(s4, n, f, p);
    st := ClientStartsTunnel(s5, n, f, p, TheMarker(f, s5.links[f]));
  }

  /** A session in full operation, on a connection that started from the given numbers; the
      acknowledgement of the marker is still on its way. */
  predicate Running(st: System, n: Nonce, p: Nonce, f: Flow, clientNext: u32, proxyNext: u32) {
    var l := Wrote(NewLink(n, clientNext, proxyNext)).(session := p);
    && f in st.links && f != Reverse(f)
    && st.links[f] == l.(pk := Kernel(proxyNext, proxyNext, Add32(clientNext, 1), MARKER, false))
    && n in st.s.clients && st.s.clients[n] == OpenClient(n, f, p, TheMarker(f, l))
    && p in st.s.proxies && st.s.proxies[p] == OpenProxy(p, f, n, TheMarker(f, l))
  }

  lemma UpAndRunning(n: Nonce, p: Nonce, f: Flow, clientNext: u32, proxyNext: u32) returns (st: System)
    requires GoodNonce(n) && GoodNonce(p) && f != Reverse(f)
    ensures Reachable(st) && Running(st, n, p, f, clientNext, proxyNext)
  {
    var s1 := UpToMarker(n, p, f, clientNext, proxyNext);
    var seg := TheMarker(f, s1.links[f]);
    var s2 := MarkerArrives(s1, f, p, n, seg);
    var s3 := ProxyStartsTunnel(s2, p, f, n, seg);
    var s4 := ClientOpens(s3, n, f, p, seg);
    st := ProxyOpens(s4, p, f, n, seg);
  }

  predicate DataPlanesOpen(st: System, n: Nonce, p: Nonce, f: Flow) {
    && n in st.s.clients && st.s.clients[n].dataPlane && st.s.clients[n].flow == f
    && p in st.s.proxies && st.s.proxies[p].dataPlane && st.s.proxies[p].flow == f
  }

  /** Sessions can succeed: for all nonces, flows and initial numbers there is a run that
      opens the data plane on both sides of one connection. */
  lemma SessionsCanSucceed(n: Nonce, p: Nonce, f: Flow, clientNext: u32, proxyNext: u32)
    requires GoodNonce(n) && GoodNonce(p) && f != Reverse(f)
    ensures exists st :: Reachable(st) && DataPlanesOpen(st, n, p, f)
  {
    var st := UpAndRunning(n, p, f, clientNext, proxyNext);
    assert DataPlanesOpen(st, n, p, f);
  }

  // ---------- Packets get through ----------

  /** A segment on the wire for the proxy is taken in by the tunnel queue. */
  lemma QueueTakesUp(st: System, f: Flow, seg: Segment, wrote: bool) returns (st': System)
    requires Reachable(st) && LinkUp(st, f) && seg in st.s.wire && seg.flow == f
    requires SessionOf(st, st.links[f]).Some? && SessionOf(st, st.links[f]).value.queueRan
    ensures Reachable(st') && LinkNext(st, ReachProxy(f, seg, true, wrote), st')
  {
    st' := st.(links := st.links[f := AtProxy(st.links[f], SessionOf(st, st.links[f]), seg, true, wrote)]);
    Step(st, ReachProxy(f, seg, true, wrote), st');
  }

  lemma QueueTakesDown(st: System, f: Flow, seg: Segment, wrote: bool) returns (st': System)
    requires Reachable(st) && LinkUp(st, f) && seg in st.s.wire && seg.flow == Reverse(f) && ClientOf(st, f).queueRan
    ensures Reachable(st') && LinkNext(st, ReachClient(f, seg, true, wrote), st')
  {
    st' := st.(links := st.links[f := AtClient(st.links[f], ClientOf(st, f), seg, true, wrote)]);
    Step(st, ReachClient(f, seg, true, wrote), st');
  }

  lemma PacketUp(st: System, n: Nonce, p: Nonce, f: Flow, x: u32, y: u32, seqNum: u32, inner: Octets) returns (st': System)
    requires Reachable(st) && Running(st, n, p, f, x, y) && WellFormed(inner) && |inner| <= 1400
    ensures Reachable(st') && f in st'.links && inner in st'.links[f].clientReads && inner in st'.links[f].proxyWrites
  {
    var l, c := st.links[f], ClientOf(st, f);
    var seg := Outer(f, seqNum, c.bases.fakeBase.proxySeq, inner);
    var one := Sent(st, f, l.(clientReads := l.clientReads + {inner}), seg);
    Step(st, ClientInjects(f, seqNum, inner), one);
    st' := QueueTakesUp(one, f, seg, true);
    ArrivesAtProxy(one, f, seg, true, true, st');
  }

  lemma PacketDown(st: System, n: Nonce, p: Nonce, f: Flow, x: u32, y: u32, seqNum: u32, inner: Octets) returns (st': System)
    requires Reachable(st) && Running(st, n, p, f, x, y) && WellFormed(inner) && |inner| <= 1400
    ensures Reachable(st') && f in st'.links && inner in st'.links[f].proxyReads && inner in st'.links[f].clientWrites
  {
    var l, q := st.links[f], SessionOf(st, st.links[f]).value;
    var seg := Outer(Reverse(f), seqNum, q.bases.fakeBase.clientSeq, inner);
    var one := Sent(st, f, l.(proxyReads := l.proxyReads + {inner}), seg);
    Step(st, ProxyInjects(f, seqNum, inner), one);
    st' := QueueTakesDown(one, f, seg, true);
    ArrivesAtClient(one, f, seg, true, true, st');
  }

  ghost predicate CanReachProxyTun(f: Flow, inner: Octets) {
    exists st: System :: Reachable(st) && f in st.links && inner in st.links[f].proxyWrites
  }

  ghost predicate CanReachClientTun(f: Flow, inner: Octets) {
    exists st: System :: Reachable(st) && f in st.links && inner in st.links[f].clientWrites
  }

  /** For all nonces, flows and numbers, every well-formed packet of at most 1400 octets can
      get from either TUN to the other. */
  lemma PacketsGetThrough(n: Nonce, p: Nonce, f: Flow, clientNext: u32, proxyNext: u32, inner: Octets)
    requires GoodNonce(n) && GoodNonce(p) && f != Reverse(f)
    requires WellFormed(inner) && |inner| <= 1400
    ensures CanReachProxyTun(f, inner) && CanReachClientTun(f, inner)
  {
    var st := UpAndRunning(n, p, f, clientNext, proxyNext);
    var up := PacketUp(st, n, p, f, clientNext, proxyNext, 0, inner);
    var down := PacketDown(st, n, p, f, clientNext, proxyNext, 0, inner);
  }

  // ---------- The hidden connection settles ----------

  lemma KernelSendsDown(st: System, f: Flow, seg: Segment) returns (st': System)
    requires Reachable(st) && LinkUp(st, f) && Idles(st.links[f].pk, Reverse(f), seg)
    ensures Reachable(st') && st' == Sent(st, f, st.links[f], seg)
  {
    st' := Sent(st, f, st.links[f], seg);
    Step(st, ProxyEmits(f, seg), st');
  }

  lemma KernelSendsUp(st: System, f: Flow, seg: Segment) returns (st': System)
    requires Reachable(st) && LinkUp(st, f) && Idles(st.links[f].ck, f, seg)
    ensures Reachable(st') && st' == Sent(st, f, st.links[f], seg)
  {
    st' := Sent(st, f, st.links[f], seg);
    Step(st, ClientEmits(f, seg), st');
  }

  /** The marker is acknowledged, a keepalive probe of either side is on the wire, and the far
      filter lets it through. */
  predicate Settled(st: System, f: Flow, clientNext: u32, proxyNext: u32) {
    var up := Segment(f, clientNext, proxyNext, FLAG_ACK, []);
    var down := Segment(Reverse(f), Add32(proxyNext, -1), Add32(clientNext, 1), FLAG_ACK, []);
    && LinkUp(st, f) && st.links[f].ck.sndUna == st.links[f].ck.sndNxt == Add32(clientNext, 1)
    && up in st.s.wire && ProxyDecides(SessionOf(st, st.links[f]), up, true) == Accept
    && down in st.s.wire && ClientDecides(ClientOf(st, f), down, true) == Accept
  }

  /** The proxy's acknowledgement passes the client's filter and settles the connection, and
      from then on the keepalive probes of both sides pass. */
  lemma ConnectionSettles(n: Nonce, p: Nonce, f: Flow, clientNext: u32, proxyNext: u32)
    requires GoodNonce(n) && GoodNonce(p) && f != Reverse(f)
    ensures exists st :: Reachable(st) && Settled(st, f, clientNext, proxyNext)
  {
    var s1 := UpAndRunning(n, p, f, clientNext, proxyNext);
    var marker := TheMarker(f, s1.links[f]);
    var ack := Segment(Reverse(f), proxyNext, Add32(clientNext, 1), FLAG_ACK, []);
    var s2 := KernelSendsDown(s1, f, ack);
    var s3 := QueueTakesDown(s2, f, ack, false);
    AllowedExactly(marker, ack);
    ArrivesAtClient(s2, f, ack, true, false, s3);
    AckSettles(s1.links[f].ck, ack, clientNext);
    var up := Segment(f, clientNext, proxyNext, FLAG_ACK, []);
    var down := Segment(Reverse(f), Add32(proxyNext, -1), Add32(clientNext, 1), FLAG_ACK, []);
    assert Add32(Add32(clientNext, 1), -1) == clientNext;
    var s4 := KernelSendsUp(s3, f, up);
    var s5 := KernelSendsDown(s4, f, down);
    AllowedExactly(marker, up);
    AllowedExactly(marker, down);
    assert Settled(s5, f, clientNext, proxyNext);
  }

  lemma AckSettles(k: Kernel, ack: Segment, clientNext: u32)
    requires k.sndUna == clientNext && k.sndNxt == Add32(clientNext, 1)
    requires ack.ackNum == k.sndNxt && ack.payload == [] && ack.flags == FLAG_ACK
    ensures Takes(k, ack) == k.(sndUna := k.sndNxt)
  {
    assert Ahead(clientNext, Add32(clientNext, 1)) == 1;
  }

  // ---------- A STOP stops the other side ----------

  /** Side by side down: no data plane, no rule, on either. */
  predicate Down(st: System, n: Nonce, p: Nonce) {
    && n in st.s.clients && p in st.s.proxies
    && var c, q := st.s.clients[n], st.s.proxies[p];
    && c.phase == CRuleGone && !c.dataPlane && !c.tunnelRule && c.udp.stop && c.udp.sessionStop
    && q.phase == PRuleGone && !q.dataPlane && !q.tunnelRule && q.udp.stop && q.udp.sessionStop
  }

  lemma ClientGoesDown(st: System, n: Nonce) returns (st': System)
    requires Reachable(st) && n in st.s.clients && st.s.clients[n].phase.CCleanup?
    ensures Reachable(st') && n in st'.s.clients && OnlyClient(st, n, st'.s.clients[n], st')
    ensures var c := st'.s.clients[n];
      c.phase == CRuleGone && !c.dataPlane && !c.tunnelRule && c.udp.stop && c.udp.sessionStop &&
      c.udp.stopReceived == st.s.clients[n].udp.stopReceived && c.stopSent == st.s.clients[n].stopSent
  {
    var one := ClientMoves(st, n, ShutData);
    st' := ClientMoves(one, n, RemoveRule);
  }

  lemma ProxyGoesDown(st: System, p: Nonce) returns (st': System)
    requires Reachable(st) && p in st.s.proxies && st.s.proxies[p].phase.PCleanup?
    ensures Reachable(st') && p in st'.s.proxies && OnlyProxy(st, p, st'.s.proxies[p], st')
    ensures var q := st'.s.proxies[p];
      q.phase == PRuleGone && !q.dataPlane && !q.tunnelRule && q.udp.stop && q.udp.sessionStop &&
      q.udp.stopReceived == st.s.proxies[p].udp.stopReceived && q.stopSent == st.s.proxies[p].stopSent
  {
    var one := ProxyMoves(st, p, PShutData);
    st' := ProxyMoves(one, p, PRemoveRule);
  }

  ghost predicate ClientCanEnd(n: Nonce) {
    exists st: System :: Reachable(st) && n in st.s.clients && st.s.clients[n].phase == CRuleGone && !st.s.clients[n].tunnelRule
  }

  ghost predicate ProxyCanEnd(p: Nonce) {
    exists st: System :: Reachable(st) && p in st.s.proxies && st.s.proxies[p].phase == PRuleGone && !st.s.proxies[p].tunnelRule
  }

  /** Cleanup may begin at any point and can always be gone through: from every state that can
      be reached, either side gets to where its rule is gone. */
  lemma AlwaysCanEnd(st: System)
    requires Reachable(st)
    ensures forall n | n in st.s.clients && st.s.clients[n].phase != CRuleGone :: ClientCanEnd(n)
    ensures forall p | p in st.s.proxies && st.s.proxies[p].phase != PRuleGone :: ProxyCanEnd(p)
  {
    forall n | n in st.s.clients && st.s.clients[n].phase != CRuleGone ensures ClientCanEnd(n) {
      var one := st;
      if !st.s.clients[n].phase.CCleanup? {
        one := ClientMoves(st, n, BeginCleanup(st.s.clients[n].udp.registered));
      }
      var two := ClientGoesDown(one, n);
    }
    forall p | p in st.s.proxies && st.s.proxies[p].phase != PRuleGone ensures ProxyCanEnd(p) {
      var one := st;
      if !st.s.proxies[p].phase.PCleanup? {
        one := ProxyMoves(st, p, PBeginCleanup);
      }
      var two := ProxyGoesDown(one, p);
    }
  }

  lemma ClientTells(st: System, n: Nonce, f: Flow, p: Nonce, seg: Segment) returns (st': System)
    requires Reachable(st) && n in st.s.clients && st.s.clients[n] == OpenClient(n, f, p, seg)
    ensures Reachable(st') && n in st'.s.clients && OnlyClient(st, n, st'.s.clients[n], st')
    ensures Stop(n, p) in st'.s.net && st'.s.clients[n].phase.CCleanup?
  {
    var one := ClientMoves(st, n, BeginCleanup(true));
    st' := ClientMoves(one, n, SendStop);
  }

  lemma ProxyTells(st: System, p: Nonce, f: Flow, n: Nonce, seg: Segment) returns (st': System)
    requires Reachable(st) && p in st.s.proxies && st.s.proxies[p] == OpenProxy(p, f, n, seg)
    ensures Reachable(st') && p in st'.s.proxies && OnlyProxy(st, p, st'.s.proxies[p], st')
    ensures Stop(n, p) in st'.s.net && st'.s.proxies[p].phase.PCleanup?
  {
    var one := ProxyMoves(st, p, PBeginCleanup);
    st' := ProxyMoves(one, p, PSendStop);
  }

  lemma ClientIsTold(st: System, n: Nonce, f: Flow, p: Nonce, seg: Segment) returns (st': System)
    requires Reachable(st) && n in st.s.clients && st.s.clients[n] == OpenClient(n, f, p, seg) && Stop(n, p) in st.s.net
    ensures Reachable(st') && n in st'.s.clients && OnlyClient(st, n, st'.s.clients[n], st')
    ensures var c := st'.s.clients[n]; c.phase == CCleanup(false) && c.udp.stopReceived && !c.stopSent
  {
    var one := ClientMoves(st, n, Hear(Stop(n, p)));
    st' := ClientMoves(one, n, BeginCleanup(false));
  }

  lemma ProxyIsTold(st: System, p: Nonce, f: Flow, n: Nonce, seg: Segment) returns (st': System)
    requires Reachable(st) && p in st.s.proxies && st.s.proxies[p] == OpenProxy(p, f, n, seg) && Stop(n, p) in st.s.net
    ensures Reachable(st') && p in st'.s.proxies && OnlyProxy(st, p, st'.s.proxies[p], st')
    ensures var q := st'.s.proxies[p]; q.phase == PCleanup(false) && q.udp.stopReceived && !q.stopSent
  {
    var one := ProxyMoves(st, p, PHear(Stop(n, p), SOMEWHERE, true));
    st' := ProxyMoves(one, p, PBeginCleanup);
  }

  /** The client ends and tells the proxy, whose control thread raises the flags; the proxy
      goes down without a STOP of its own. */
  lemma ClientStopsProxy(n: Nonce, p: Nonce, f: Flow, x: u32, y: u32)
    requires GoodNonce(n) && GoodNonce(p) && f != Reverse(f)
    ensures exists st :: Reachable(st) && Down(st, n, p) && st.s.proxies[p].udp.stopReceived && !st.s.proxies[p].stopSent
  {
    var s1 := UpAndRunning(n, p, f, x, y);
    var seg := TheMarker(f, s1.links[f]);
    var s2 := ClientTells(s1, n, f, p, seg);
    var s3 := ClientGoesDown(s2, n);
    var s4 := ProxyIsTold(s3, p, f, n, seg);
    var s5 := ProxyGoesDown(s4, p);
    assert Down(s5, n, p);
  }

  /** And the other way round. */
  lemma ProxyStopsClient(n: Nonce, p: Nonce, f: Flow, x: u32, y: u32)
    requires GoodNonce(n) && GoodNonce(p) && f != Reverse(f)
    ensures exists st :: Reachable(st) && Down(st, n, p) && st.s.clients[n].udp.stopReceived && !st.s.clients[n].stopSent
  {
    var s1 := UpAndRunning(n, p, f, x, y);
    var seg := TheMarker(f, s1.links[f]);
    var s2 := ProxyTells(s1, p, f, n, seg);
    var s3 := ProxyGoesDown(s2, p);
    var s4 := ClientIsTold(s3, n, f, p, seg);
    var s5 := ClientGoesDown(s4, n);
    assert Down(s5, n, p);
  }

  /** The client's filter is in place and drops `seg`, which the proxy's kernel may send. */
  predicate DropsIdleAck(st: System, f: Flow, seg: Segment) {
    && LinkUp(st, f) && ClientOf(st, f).queueReady
    && Idles(st.links[f].pk, Reverse(f), seg) && ClientDecides(ClientOf(st, f), seg, true) == Drop
  }

  /** Until the marker has arrived, a client that has learned drops a pure ACK of the proxy's
      kernel: there is a run to such a point, whatever the numbers. */
  lemma EarlyAckDropped(n: Nonce, p: Nonce, f: Flow, clientNext: u32, proxyNext: u32)
    requires GoodNonce(n) && GoodNonce(p) && f != Reverse(f)
    ensures exists st, seg :: Reachable(st) && DropsIdleAck(st, f, seg)
  {
    var st := UpToMarker(n, p, f, clientNext, proxyNext);
    var seg := Segment(Reverse(f), proxyNext, clientNext, FLAG_ACK, []);
    assert Add32(clientNext, 1) != clientNext;
    assert DropsIdleAck(st, f, seg);
  }

  /** Session `p` is done with the handshake, and the client it names has learned other real
      bases and other fake bases. */
  predicate BasesDiffer(st: System, p: Nonce) {
    && p in st.s.proxies && st.s.proxies[p].udp.readyDone && st.s.proxies[p].phase == PData
    && st.s.proxies[p].udp.clientNonce in st.s.clients
    && var c, q := st.s.clients[st.s.proxies[p].udp.clientNonce].bases, st.s.proxies[p].bases;
    c.realBase != q.realBase && c.fakeBase != q.fakeBase
  }

  /** With two clients live at once the bases can differ. Clients `a` and `b` connect; the
      first session accepts `b`'s connection, takes `a`'s REGISTER and ends; the next session
      accepts `a`'s connection, takes `b`'s REGISTER, learns from `a`'s marker and completes
      the handshake with `b`. Any two connections do that start from different numbers. */
  lemma CrossedBasesDiffer(a: Nonce, b: Nonce, p0: Nonce, p: Nonce, f: Flow, g: Flow, x: u32, y: u32, x': u32, y': u32)
    requires GoodNonce(a) && GoodNonce(b) && GoodNonce(p0) && GoodNonce(p) && a != b && p0 != p
    requires f != Reverse(f) && g != Reverse(g) && f != g && f != Reverse(g)
    requires x != x' || y != y'
    ensures exists st :: Reachable(st) && BasesDiffer(st, p)
  {
    Start();
    assert Reverse(Reverse(g)) == g;
    var s1 := ClientConnects(System(EMPTY, map[]), a, f, x, y);
    var s2 := ClientConnects(s1, b, g, x', y');
    var s3 := CrossedFirstSession(s2, a, b, p0, f, g);
    CrossedSecondSession(s3, b, p, f, g);
  }

  /** Client `n` has connected over `f`, asked to register, and nothing more. */
  predicate HasConnected(st: System, n: Nonce, f: Flow) {
    && n in st.s.clients && st.s.clients[n] == NewClient(n, f) && Register(n) in st.s.net
    && f in st.links && st.links[f].client == n && !st.links[f].markerWritten
    && st.links[f].ck == NewLink(n, st.links[f].clientNext, st.links[f].proxyNext).ck
  }

  /** A marker was sent over `f`; nobody has accepted the connection. */
  predicate MarkerWaits(st: System, f: Flow) {
    && LinkUp(st, f) && st.links[f].session == "" && TheMarker(f, st.links[f]) in st.s.wire
    && st.links[f].pk == NewLink(st.links[f].client, st.links[f].clientNext, st.links[f].proxyNext).pk
  }

  predicate OtherNumbers(st: System, f: Flow, g: Flow) {
    && f in st.links && g in st.links
    && (st.links[f].clientNext != st.links[g].clientNext || st.links[f].proxyNext != st.links[g].proxyNext)
  }

  lemma CrossedFirstSession(s1: System, a: Nonce, b: Nonce, p0: Nonce, f: Flow, g: Flow) returns (st: System)
    requires Reachable(s1) && GoodNonce(p0) && s1.s.proxies == map[] && a != b && f != g
    requires HasConnected(s1, a, f) && HasConnected(s1, b, g) && s1.links[g].session == "" && s1.links[f].session == ""
    requires s1.links[f].pk == NewLink(a, s1.links[f].clientNext, s1.links[f].proxyNext).pk
    requires OtherNumbers(s1, f, g)
    ensures Reachable(st) && HasConnected(st, b, g) && MarkerWaits(st, f) && st.s.proxies.Keys == {p0}
    ensures OtherNumbers(st, f, g)
  {
    var s2 := ProxyAccepts(s1, p0, g);
    var s3 := ProxySetsUp(s2, p0, g, a);
    var s4 := ClientGetsReady(s3, a, f, p0);
    var s5 := ClientSendsMarker(s4, a, f, p0);
    var s6 := ProxyMoves(s5, p0, PBeginCleanup);
    var s7 := ProxyMoves(s6, p0, PShutData);
    st := ProxyMoves(s7, p0, PRemoveRule);
  }

  /** Markers with other numbers teach other bases. */
  lemma OtherMarkersOtherBases(s: Segment, t: Segment)
    requires s.seqNum != t.seqNum || s.ackNum != t.ackNum
    ensures ClientLearns(s).realBase != ProxyLearns(t).realBase && ClientLearns(s).fakeBase != ProxyLearns(t).fakeBase
  {
  }

  lemma CrossedSecondSession(s1: System, b: Nonce, p: Nonce, f: Flow, g: Flow)
    requires Reachable(s1) && GoodNonce(p) && p !in s1.s.proxies && f != g
    requires MarkerWaits(s1, f) && HasConnected(s1, b, g) && OtherNumbers(s1, f, g)
    ensures exists st :: Reachable(st) && BasesDiffer(st, p)
  {
    var seg := TheMarker(f, s1.links[f]);
    var s2 := ProxyAccepts(s1, p, f);
    var s3 := ProxySetsUp(s2, p, f, b);
    var s4 := ClientGetsReady(s3, b, g, p);
    var s5 := ClientSendsMarker(s4, b, g, p);
    var own := TheMarker(g, s5.links[g]);
    var s6 := ClientStartsTunnel(s5, b, g, p, own);
    var s7 := MarkerArrives(s6, f, p, b, seg);
    var s8 := ProxyStartsTunnel(s7, p, f, b, seg);
    var s9 := ClientOpens(s8, b, g, p, own);
    var st := ProxyOpens(s9, p, f, b, seg);
    OtherMarkersOtherBases(own, seg);
    assert BasesDiffer(st, p);
  }
}
