/** The session protocol of the LTE pair as a distributed system: any number of client
    processes and proxy sessions, earlier ones included, over a UDP network that loses,
    repeats and reorders, and a TCP wire about which nothing is assumed here.

    The network and the wire are the sets of everything ever sent: a receiver may take any
    element at any time, any number of times, or never. The threads of an endpoint share one
    record, and an event is at most one store to it or one send. Tests of the stop flags are
    no part of an event: a thread that has passed such a test goes on, whatever is raised
    before its next step, and one that sees a flag goes to cleanup, which may begin at any
    point. Of the flags that are read here, a received answer and a registration stay; the
    wait for the tunnel queue ends with the test itself. */
module Session {
  import opened Bytes
  import opened Messages
  import opened OuterPacket
  import opened Learning
  import C = ClientUdp
  import P = ProxyUdp

  // ---------- Endpoints ----------

  /** Where the main thread is. `CCleanup`: at the cleanup label; `tells`: it will send STOP.
      `CRuleGone`: from the moment its tunnel rule is removed. Its socket is closed some time
      later, and threads that were started may still go on. */
  datatype ClientPhase =
    | CRegister | CWaitLearn | CLearn | CLearned | CTunnel | CHandshake | CStartAck(sent: nat)
    | CReady | CData | CCleanup(tells: bool) | CRuleGone

  /** A client process. `queueRan`, `everOpen` and `stopSent` remember that the tunnel queue
      was up, the data plane open, a STOP sent. */
  datatype Client = Client(
    flow: Flow, udp: C.ClientView, bases: Bases,
    tunnelRule: bool, queueReady: bool, queueRan: bool,
    dataPlane: bool, everOpen: bool, stopSent: bool,
    phase: ClientPhase)

  /** The same for a proxy session, whose raw thread is joined only after `PRuleGone`. */
  datatype ProxyPhase =
    | PRegister | PSetup | PLearn | PLearned | PTunnel | PHandshake | PReady | PRaw | PData
    | PCleanup(tells: bool) | PRuleGone

  /** A proxy session; `rawStarted`: its thread that reads the TUN was started. */
  datatype Proxy = Proxy(
    flow: Flow, udp: P.ProxyView, bases: Bases,
    tunnelRule: bool, queueReady: bool, queueRan: bool, rawStarted: bool,
    dataPlane: bool, everOpen: bool, stopSent: bool,
    phase: ProxyPhase)

  /** How far a session has come, in the order of the phases. */
  function ClientRank(ph: ClientPhase): nat {
    match ph
    case CRegister => 0
    case CWaitLearn => 1
    case CLearn => 2
    case CLearned => 3
    case CTunnel => 4
    case CHandshake => 5
    case CStartAck(_) => 6
    case CReady => 7
    case CData => 8
    case CCleanup(_) => 9
    case CRuleGone => 10
  }

  function ProxyRank(ph: ProxyPhase): nat {
    match ph
    case PRegister => 0
    case PSetup => 1
    case PLearn => 2
    case PLearned => 3
    case PTunnel => 4
    case PHandshake => 5
    case PReady => 6
    case PRaw => 7
    case PData => 8
    case PCleanup(_) => 9
    case PRuleGone => 10
  }

  predicate Learned(b: Bases) {
    b.realBase.learned && b.fakeBase.initialized && b.ack.learned
  }

  // ---------- What an endpoint does ----------

  datatype ClientAct =
    | SendRegister | TakeRegister(m: Msg) | Hear(m: Msg) | SeeLearnReady | SeeMarker(s: Segment)
    | StartTunnel | QueueUp | QueueDown | BeginHandshake | SendReady | BeginStartAck | SendStartAck
    | FinishHandshake | OpenData | BeginCleanup(tells: bool) | SendStop | ShutData | RemoveRule

  datatype ProxyAct =
    | PTakeRegister(m: Msg, from: P.Address) | PHear(m: Msg, from: P.Address, sendOk: bool) | PSendLearnReady | PSeeMarker(s: Segment)
    | PStartTunnel | PQueueUp | PQueueDown | PBeginHandshake | PSendReadyAck
    | PFinishHandshake | PStartRaw | POpenData | PBeginCleanup | PSendStop | PShutData | PRemoveRule

  /** What an act does where it is possible: the new record and the messages sent. A send
      that fails is a message that is lost, followed by cleanup. */
  datatype Outcome<T> = Blocked | Moved(next: T, out: set<Msg>)

  /** Registration, the control loop, and the wait for LEARN_READY. */
  function ClientTalk(c: Client, a: ClientAct): Outcome<Client> {
    var u := c.udp;
    match a
    case SendRegister =>
      if c.phase == CRegister then Moved(c, {Register(u.clientNonce)}) else Blocked
    case TakeRegister(m) =>
      if c.phase == CRegister && C.OnRegisterMsg(u, m).Some?
      then Moved(c.(udp := C.OnRegisterMsg(u, m).value, phase := CWaitLearn), {}) else Blocked
    case Hear(m) =>
      if c.phase != CRegister && u.registered then Moved(c.(udp := C.OnMsg(u, m)), {}) else Blocked
    case SeeLearnReady =>
      if c.phase == CWaitLearn && u.learnReady then Moved(c.(phase := CLearn), {}) else Blocked
    case _ => Blocked
  }

  /** Base learning and the tunnel queue, whose thread may be slow to come up. */
  function ClientTunnel(c: Client, a: ClientAct): Outcome<Client> {
    var u := c.udp;
    match a
    case SeeMarker(s) =>
      if c.phase == CLearn && s.flow == c.flow && IsMarker(s)
      then Moved(c.(bases := ClientLearns(s), phase := CLearned), {}) else Blocked
    case StartTunnel =>
      if c.phase == CLearned then Moved(c.(tunnelRule := true, phase := CTunnel), {}) else Blocked
    case QueueUp =>
      if c.tunnelRule || (c.phase == CRuleGone && Learned(c.bases))
      then Moved(c.(queueReady := true, queueRan := true), {}) else Blocked
    case QueueDown =>
      if c.queueReady then Moved(c.(queueReady := false), {}) else Blocked
    case BeginHandshake =>
      if c.phase == CTunnel && c.queueReady then Moved(c.(phase := CHandshake), {}) else Blocked
    case _ => Blocked
  }

  /** The ready handshake and the start of the data plane. */
  function ClientHandshake(c: Client, a: ClientAct): Outcome<Client> {
    var u := c.udp;
    match a
    case SendReady =>
      if c.phase == CHandshake then Moved(c, {ClientReady(u.clientNonce)}) else Blocked
    case BeginStartAck =>
      if c.phase == CHandshake && u.readyAck then Moved(c.(phase := CStartAck(0)), {}) else Blocked
    case SendStartAck =>
      if c.phase.CStartAck? && c.phase.sent < 3
      then Moved(c.(phase := CStartAck(c.phase.sent + 1)), {StartAck(u.proxyNonce)}) else Blocked
    case FinishHandshake =>
      if c.phase == CStartAck(3) then Moved(c.(udp := u.(readyDone := true), phase := CReady), {}) else Blocked
    case OpenData =>
      if c.phase == CReady then Moved(c.(dataPlane := true, everOpen := true, phase := CData), {}) else Blocked
    case _ => Blocked
  }

  /** The cleanup label of `main`: whether to tell the proxy, the STOP itself, the flags, the
      rule. Its test of the session's stop flag may come before the control thread, which has
      taken a STOP, has stored that flag too. */
  function ClientCleanup(c: Client, a: ClientAct): Outcome<Client> {
    var u := c.udp;
    match a
    case BeginCleanup(tells) =>
      if !c.phase.CCleanup? && !c.phase.CRuleGone? && (tells ==> u.registered) && (u.registered && !u.sessionStop ==> tells)
      then Moved(c.(phase := CCleanup(tells)), {}) else Blocked
    case SendStop =>
      if c.phase == CCleanup(true) then Moved(c.(stopSent := true), {Stop(u.clientNonce, u.proxyNonce)}) else Blocked
    case ShutData =>
      if c.phase.CCleanup? then Moved(c.(udp := u.(stop := true, sessionStop := true), dataPlane := false), {}) else Blocked
    case RemoveRule =>
      if c.phase.CCleanup? && u.stop && !c.dataPlane then Moved(c.(tunnelRule := false, phase := CRuleGone), {}) else Blocked
    case _ => Blocked
  }

  /** LTE client: `main`, the functions it calls, and the control and tunnel threads. */
  function ClientStep(c: Client, a: ClientAct): Outcome<Client> {
    match a
    case SendRegister | TakeRegister(_) | Hear(_) | SeeLearnReady => ClientTalk(c, a)
    case SeeMarker(_) | StartTunnel | QueueUp | QueueDown | BeginHandshake => ClientTunnel(c, a)
    case SendReady | BeginStartAck | SendStartAck | FinishHandshake | OpenData => ClientHandshake(c, a)
    case BeginCleanup(_) | SendStop | ShutData | RemoveRule => ClientCleanup(c, a)
  }

  /** Registration, the control loop, and LEARN_READY. */
  function ProxyTalk(p: Proxy, a: ProxyAct): Outcome<Proxy> {
    var u := p.udp;
    match a
    case PTakeRegister(m, from) =>
      if p.phase == PRegister && P.OnRegisterMsg(u, m, from).Some?
      then var u' := P.OnRegisterMsg(u, m, from).value; Moved(p.(udp := u', phase := PSetup), {RegisterAck(u'.clientNonce, u'.proxyNonce)})
      else Blocked
    case PHear(m, from, sendOk) =>
      if p.phase != PRegister && u.registered
      then var (u', reply) := P.OnMsg(u, m, from, sendOk); Moved(p.(udp := u'), if reply.Some? then {reply.value} else {})
      else Blocked
    case PSendLearnReady =>
      if p.phase == PSetup then Moved(p.(phase := PLearn), {LearnReady(u.clientNonce, u.proxyNonce)}) else Blocked
    case _ => Blocked
  }

  /** Base learning and the tunnel queue. */
  function ProxyTunnel(p: Proxy, a: ProxyAct): Outcome<Proxy> {
    var u := p.udp;
    match a
    case PSeeMarker(s) =>
      if p.phase == PLearn && s.flow == p.flow && IsMarker(s)
      then Moved(p.(bases := ProxyLearns(s), phase := PLearned), {}) else Blocked
    case PStartTunnel =>
      if p.phase == PLearned then Moved(p.(tunnelRule := true, phase := PTunnel), {}) else Blocked
    case PQueueUp =>
      if p.tunnelRule || (p.phase == PRuleGone && Learned(p.bases))
      then Moved(p.(queueReady := true, queueRan := true), {}) else Blocked
    case PQueueDown =>
      if p.queueReady then Moved(p.(queueReady := false), {}) else Blocked
    case PBeginHandshake =>
      if p.phase == PTunnel && p.queueReady then Moved(p.(phase := PHandshake), {}) else Blocked
    case _ => Blocked
  }

  /** The ready handshake and the start of the data plane. */
  function ProxyHandshake(p: Proxy, a: ProxyAct): Outcome<Proxy> {
    var u := p.udp;
    match a
    case PSendReadyAck =>
      if p.phase == PHandshake && u.clientReady
      then Moved(p, {ReadyAck(u.clientNonce, u.proxyNonce)}) else Blocked
    case PFinishHandshake =>
      if p.phase == PHandshake && u.startAck
      then Moved(p.(udp := u.(readyDone := true), phase := PReady), {}) else Blocked
    case PStartRaw =>
      if p.phase == PReady then Moved(p.(rawStarted := true, phase := PRaw), {}) else Blocked
    case POpenData =>
      if p.phase == PRaw then Moved(p.(dataPlane := true, everOpen := true, phase := PData), {}) else Blocked
    case _ => Blocked
  }

  /** The cleanup at the end of a session, which tests the flag that is stored first. */
  function ProxyCleanup(p: Proxy, a: ProxyAct): Outcome<Proxy> {
    var u := p.udp;
    match a
    case PBeginCleanup =>
      if !p.phase.PCleanup? && !p.phase.PRuleGone?
      then Moved(p.(phase := PCleanup(u.registered && !u.stopReceived)), {}) else Blocked
    case PSendStop =>
      if p.phase == PCleanup(true) then Moved(p.(stopSent := true), {Stop(u.clientNonce, u.proxyNonce)}) else Blocked
    case PShutData =>
      if p.phase.PCleanup? then Moved(p.(udp := u.(stop := true, sessionStop := true), dataPlane := false), {}) else Blocked
    case PRemoveRule =>
      if p.phase.PCleanup? && u.stop && !p.dataPlane then Moved(p.(tunnelRule := false, phase := PRuleGone), {}) else Blocked
    case _ => Blocked
  }

  /** One session of the LTE proxy's `main` loop with its threads. */
  function ProxyStep(p: Proxy, a: ProxyAct): Outcome<Proxy> {
    match a
    case PTakeRegister(_, _) | PHear(_, _, _) | PSendLearnReady => ProxyTalk(p, a)
    case PSeeMarker(_) | PStartTunnel | PQueueUp | PQueueDown | PBeginHandshake => ProxyTunnel(p, a)
    case PSendReadyAck | PFinishHandshake | PStartRaw | POpenData => ProxyHandshake(p, a)
    case PBeginCleanup | PSendStop | PShutData | PRemoveRule => ProxyCleanup(p, a)
  }

  // ---------- The system ----------

  datatype State = State(clients: map<Nonce, Client>, proxies: map<Nonce, Proxy>, net: set<Msg>, wire: set<Segment>)

  datatype Event =
    | StartClient(n: Nonce, flow: Flow)
    | StartProxy(n: Nonce, flow: Flow)
    | ClientDoes(n: Nonce, ca: ClientAct)
    | ProxyDoes(n: Nonce, pa: ProxyAct)
    | WireGrows(segments: set<Segment>)

  const EMPTY: State := State(map[], map[], {}, {})

  function NewClient(n: Nonce, flow: Flow): Client {
    Client(flow, C.Fresh(n), NOTHING_LEARNED, false, false, false, false, false, false, CRegister)
  }

  function NewProxy(n: Nonce, flow: Flow): Proxy {
    Proxy(flow, P.Fresh(n), NOTHING_LEARNED, false, false, false, false, false, false, false, PRegister)
  }

  /** What an act takes from the network or the wire must have been sent. */
  predicate ClientCan(s: State, a: ClientAct) {
    match a
    case TakeRegister(m) => m in s.net
    case Hear(m) => m in s.net
    case SeeMarker(seg) => seg in s.wire
    case _ => true
  }

  predicate ProxyCan(s: State, a: ProxyAct) {
    match a
    case PTakeRegister(m, _) => m in s.net
    case PHear(m, _, _) => m in s.net
    case PSeeMarker(seg) => seg in s.wire
    case _ => true
  }

  predicate Next(s: State, e: Event, s': State) {
    match e
    case StartClient(n, flow) =>
      GoodNonce(n) && n !in s.clients && s' == s.(clients := s.clients[n := NewClient(n, flow)])
    case StartProxy(n, flow) =>
      GoodNonce(n) && n !in s.proxies && s' == s.(proxies := s.proxies[n := NewProxy(n, flow)])
    case ClientDoes(n, a) =>
      && n in s.clients && ClientCan(s, a)
      && var o := ClientStep(s.clients[n], a);
      && o.Moved? && s' == s.(clients := s.clients[n := o.next], net := s.net + o.out)
    case ProxyDoes(n, a) =>
      && n in s.proxies && ProxyCan(s, a)
      && var o := ProxyStep(s.proxies[n], a);
      && o.Moved? && s' == s.(proxies := s.proxies[n := o.next], net := s.net + o.out)
    case WireGrows(segments) =>
      s' == s.(wire := s.wire + segments)
  }

  /** A run: any finite number of events from the empty system. */
  predicate Run(states: seq<State>, events: seq<Event>) {
    && |states| == |events| + 1
    && states[0] == EMPTY
    && forall i | 0 <= i < |events| :: Next(states[i], events[i], states[i + 1])
  }

  // ---------- The invariant ----------

  /** What one client's record alone says, given what has been sent. */
  predicate ClientInv(n: Nonce, c: Client, net: set<Msg>) {
    && GoodNonce(n)
    && ClientUdpInv(n, c.udp, net)
    && ClientPhaseInv(c)
  }

  predicate ClientUdpInv(n: Nonce, u: C.ClientView, net: set<Msg>) {
    && u.clientNonce == n
    && (if u.registered then GoodNonce(u.proxyNonce) && RegisterAck(n, u.proxyNonce) in net
        else u.proxyNonce == "" && !u.learnReady && !u.readyAck && !u.stopReceived)
    && (u.learnReady ==> LearnReady(n, u.proxyNonce) in net)
    && (u.readyAck ==> ReadyAck(n, u.proxyNonce) in net)
    && (u.stopReceived ==> Stop(n, u.proxyNonce) in net)
  }

  predicate ClientPhaseInv(c: Client) {
    var u, r := c.udp, ClientRank(c.phase);
    && (r == 0 ==> !u.registered)
    && (1 <= r <= 8 || c.phase == CCleanup(true) ==> u.registered)
    && (!u.registered ==> !Learned(c.bases))
    && (2 <= r <= 8 ==> u.learnReady)
    && (r <= 2 ==> !Learned(c.bases))
    && (3 <= r <= 8 ==> Learned(c.bases))
    && (5 <= r <= 8 ==> c.queueRan)
    && (6 <= r <= 8 ==> u.readyAck)
    && (7 <= r <= 8 ==> u.readyDone)
    && (c.tunnelRule || c.queueRan ==> Learned(c.bases))
    && (c.queueReady ==> c.queueRan)
    && (c.dataPlane ==> c.everOpen)
    && (r == 8 ==> c.everOpen)
    && (c.queueRan && c.phase != CRuleGone ==> c.tunnelRule)
    && (Learned(c.bases) ==> c.bases.ack.flow == Reverse(c.flow))
    && (u.readyDone || c.everOpen ==> u.readyAck && c.queueRan)
  }

  predicate ProxyInv(n: Nonce, p: Proxy, net: set<Msg>) {
    && GoodNonce(n)
    && ProxyUdpInv(n, p.udp, net)
    && ProxyPhaseInv(p)
  }

  predicate ProxyUdpInv(n: Nonce, u: P.ProxyView, net: set<Msg>) {
    && u.proxyNonce == n
    && (if u.registered then GoodNonce(u.clientNonce) && Register(u.clientNonce) in net
        else u.clientNonce == "" && !u.clientReady && !u.startAck && !u.stopReceived)
    && (u.clientReady ==> ClientReady(u.clientNonce) in net)
    && (u.startAck ==> StartAck(n) in net)
    && (u.stopReceived ==> Stop(u.clientNonce, n) in net)
  }

  predicate ProxyPhaseInv(p: Proxy) {
    var u, r := p.udp, ProxyRank(p.phase);
    && (r == 0 ==> !u.registered)
    && (1 <= r <= 8 || p.phase == PCleanup(true) ==> u.registered)
    && (!u.registered ==> !Learned(p.bases))
    && (r <= 2 ==> !Learned(p.bases))
    && (3 <= r <= 8 ==> Learned(p.bases))
    && (5 <= r <= 8 ==> p.queueRan)
    && (6 <= r <= 8 ==> u.readyDone)
    && (p.tunnelRule || p.queueRan ==> Learned(p.bases))
    && (p.queueReady ==> p.queueRan)
    && (p.dataPlane ==> p.everOpen)
    && (p.everOpen ==> p.rawStarted)
    && (p.queueRan && p.phase != PRuleGone ==> p.tunnelRule)
    && (Learned(p.bases) ==> p.bases.ack.flow == p.flow)
    && (7 <= r <= 8 ==> p.rawStarted)
    && (p.rawStarted ==> u.readyDone)
    && (u.readyDone ==> u.startAck && p.queueRan)
  }

  /** Session `p` is registered for client nonce `c`. */
  predicate Holds(s: State, p: Nonce, c: Nonce) {
    p in s.proxies && s.proxies[p].udp.registered && s.proxies[p].udp.clientNonce == c
  }

  predicate ClientHolds(s: State, c: Nonce, p: Nonce) {
    c in s.clients && s.clients[c].udp.registered && s.clients[c].udp.proxyNonce == p
  }

  /** Client `c` holds `p`, has had its tunnel queue up and has seen READY_ACK. */
  predicate ReadyFor(s: State, c: Nonce, p: Nonce) {
    ClientHolds(s, c, p) && s.clients[c].queueRan && s.clients[c].udp.readyAck
  }

  /** What each message, once sent, says about both sides: one clause for each kind. */
  predicate MsgInv(s: State, m: Msg) {
    && GoodMsg(m)
    && match m
       case Register(c) => c in s.clients
       case RegisterAck(c, p) => Holds(s, p, c)
       case LearnReady(c, p) => Holds(s, p, c) && ProxyRank(s.proxies[p].phase) >= 2
       case ClientReady(c) => c in s.clients && s.clients[c].queueRan
       case ReadyAck(c, p) => Holds(s, p, c) && s.proxies[p].queueRan && s.proxies[p].udp.clientReady
       case StartAck(p) => exists c | c in s.clients :: ReadyFor(s, c, p)
       case Stop(c, p) => (ClientHolds(s, c, p) && s.clients[c].stopSent) || (Holds(s, p, c) && s.proxies[p].stopSent)
  }

  predicate Inv(s: State) {
    && (forall n | n in s.clients :: ClientInv(n, s.clients[n], s.net))
    && (forall n | n in s.proxies :: ProxyInv(n, s.proxies[n], s.net))
    && (forall m | m in s.net :: MsgInv(s, m))
  }

  // ---------- Records only ever grow ----------

  /** Nothing a peer may rely on is taken back: nonces and bases stay, flags latch. */
  predicate ClientGrows(a: Client, b: Client) {
    && b.flow == a.flow && b.udp.clientNonce == a.udp.clientNonce
    && (a.udp.registered ==> b.udp.registered && b.udp.proxyNonce == a.udp.proxyNonce)
    && (a.udp.learnReady ==> b.udp.learnReady)
    && (a.udp.readyAck ==> b.udp.readyAck)
    && (a.udp.readyDone ==> b.udp.readyDone)
    && (a.udp.stopReceived ==> b.udp.stopReceived)
    && (Learned(a.bases) ==> b.bases == a.bases)
    && (a.queueRan ==> b.queueRan) && (a.everOpen ==> b.everOpen) && (a.stopSent ==> b.stopSent)
    && ClientRank(a.phase) <= ClientRank(b.phase)
  }

  predicate ProxyGrows(a: Proxy, b: Proxy) {
    && b.flow == a.flow && b.udp.proxyNonce == a.udp.proxyNonce
    && (a.udp.registered ==> b.udp.registered && b.udp.clientNonce == a.udp.clientNonce)
    && (a.udp.clientReady ==> b.udp.clientReady)
    && (a.udp.startAck ==> b.udp.startAck)
    && (a.udp.readyDone ==> b.udp.readyDone)
    && (a.udp.stopReceived ==> b.udp.stopReceived)
    && (Learned(a.bases) ==> b.bases == a.bases)
    && (a.queueRan ==> b.queueRan) && (a.rawStarted ==> b.rawStarted) && (a.everOpen ==> b.everOpen) && (a.stopSent ==> b.stopSent)
    && ProxyRank(a.phase) <= ProxyRank(b.phase)
  }

  predicate Grows(s: State, s': State) {
    && s.net <= s'.net && s.wire <= s'.wire
    && (forall n | n in s.clients :: n in s'.clients && ClientGrows(s.clients[n], s'.clients[n]))
    && (forall n | n in s.proxies :: n in s'.proxies && ProxyGrows(s.proxies[n], s'.proxies[n]))
  }

  lemma MsgInvGrows(s: State, s': State, m: Msg)
    requires Grows(s, s')
    requires MsgInv(s, m)
    ensures MsgInv(s', m)
  {
    if m.StartAck? {
      var c :| c in s.clients && ReadyFor(s, c, m.proxy);
      assert ReadyFor(s', c, m.proxy);
    }
  }

  // ---------- Every event keeps the invariant ----------

  /** What a client that has just sent `m` is known to be. */
  predicate ClientSays(n: Nonce, c: Client, m: Msg) {
    var u := c.udp;
    match m
    case Register(k) => k == n
    case ClientReady(k) => k == n && c.queueRan
    case StartAck(p) => u.registered && u.proxyNonce == p && c.queueRan && u.readyAck
    case Stop(k, p) => k == n && u.registered && u.proxyNonce == p && c.stopSent
    case _ => false
  }

  predicate ProxySays(n: Nonce, p: Proxy, m: Msg) {
    var u := p.udp;
    match m
    case RegisterAck(k, q) => q == n && u.registered && u.clientNonce == k
    case LearnReady(k, q) => q == n && u.registered && u.clientNonce == k && ProxyRank(p.phase) >= 2
    case ReadyAck(k, q) => q == n && u.registered && u.clientNonce == k && p.queueRan && u.clientReady
    case Stop(k, q) => q == n && u.registered && u.clientNonce == k && p.stopSent
    case _ => false
  }

  lemma ClientTalkKeeps(n: Nonce, c: Client, a: ClientAct, net: set<Msg>)
    requires ClientInv(n, c, net)
    requires ClientTalk(c, a).Moved?
    requires a.TakeRegister? || a.Hear? ==> a.m in net && GoodMsg(a.m)
    ensures var o := ClientTalk(c, a); ClientGrows(c, o.next) && ClientInv(n, o.next, net + o.out)
    ensures forall m | m in ClientTalk(c, a).out :: ClientSays(n, ClientTalk(c, a).next, m)
  {
  }

  lemma ClientTunnelKeeps(n: Nonce, c: Client, a: ClientAct, net: set<Msg>)
    requires ClientInv(n, c, net)
    requires ClientTunnel(c, a).Moved?
    ensures var o := ClientTunnel(c, a); ClientGrows(c, o.next) && ClientInv(n, o.next, net + o.out)
    ensures forall m | m in ClientTunnel(c, a).out :: ClientSays(n, ClientTunnel(c, a).next, m)
  {
  }

  lemma ClientHandshakeKeeps(n: Nonce, c: Client, a: ClientAct, net: set<Msg>)
    requires ClientInv(n, c, net)
    requires ClientHandshake(c, a).Moved?
    ensures var o := ClientHandshake(c, a); ClientGrows(c, o.next) && ClientInv(n, o.next, net + o.out)
    ensures forall m | m in ClientHandshake(c, a).out :: ClientSays(n, ClientHandshake(c, a).next, m)
  {
  }

  lemma ClientCleanupPhase(c: Client, a: ClientAct)
    requires ClientPhaseInv(c) && ClientCleanup(c, a).Moved?
    ensures ClientPhaseInv(ClientCleanup(c, a).next)
  {
  }

  lemma ClientCleanupKeeps(n: Nonce, c: Client, a: ClientAct, net: set<Msg>)
    requires ClientInv(n, c, net)
    requires ClientCleanup(c, a).Moved?
    ensures var o := ClientCleanup(c, a); ClientGrows(c, o.next) && ClientInv(n, o.next, net + o.out)
    ensures forall m | m in ClientCleanup(c, a).out :: ClientSays(n, ClientCleanup(c, a).next, m)
  {
    ClientCleanupPhase(c, a);
  }

  lemma ClientStepKeeps(n: Nonce, c: Client, a: ClientAct, net: set<Msg>)
    requires ClientInv(n, c, net)
    requires ClientStep(c, a).Moved?
    requires a.TakeRegister? || a.Hear? ==> a.m in net && GoodMsg(a.m)
    ensures var o := ClientStep(c, a); ClientGrows(c, o.next) && ClientInv(n, o.next, net + o.out)
    ensures forall m | m in ClientStep(c, a).out :: ClientSays(n, ClientStep(c, a).next, m)
  {
    match a
    case SendRegister | TakeRegister(_) | Hear(_) | SeeLearnReady => ClientTalkKeeps(n, c, a, net);
    case SeeMarker(_) | StartTunnel | QueueUp | QueueDown | BeginHandshake => ClientTunnelKeeps(n, c, a, net);
    case SendReady | BeginStartAck | SendStartAck | FinishHandshake | OpenData => ClientHandshakeKeeps(n, c, a, net);
    case BeginCleanup(_) | SendStop | ShutData | RemoveRule => ClientCleanupKeeps(n, c, a, net);
  }

  lemma ProxyTalkKeeps(n: Nonce, p: Proxy, a: ProxyAct, net: set<Msg>)
    requires ProxyInv(n, p, net)
    requires ProxyTalk(p, a).Moved?
    requires a.PTakeRegister? || a.PHear? ==> a.m in net && GoodMsg(a.m)
    ensures var o := ProxyTalk(p, a); ProxyGrows(p, o.next) && ProxyInv(n, o.next, net + o.out)
    ensures forall m | m in ProxyTalk(p, a).out :: ProxySays(n, ProxyTalk(p, a).next, m)
  {
  }

  lemma ProxyTunnelKeeps(n: Nonce, p: Proxy, a: ProxyAct, net: set<Msg>)
    requires ProxyInv(n, p, net)
    requires ProxyTunnel(p, a).Moved?
    ensures var o := ProxyTunnel(p, a); ProxyGrows(p, o.next) && ProxyInv(n, o.next, net + o.out)
    ensures forall m | m in ProxyTunnel(p, a).out :: ProxySays(n, ProxyTunnel(p, a).next, m)
  {
  }

  lemma ProxyHandshakeKeeps(n: Nonce, p: Proxy, a: ProxyAct, net: set<Msg>)
    requires ProxyInv(n, p, net)
    requires ProxyHandshake(p, a).Moved?
    ensures var o := ProxyHandshake(p, a); ProxyGrows(p, o.next) && ProxyInv(n, o.next, net + o.out)
    ensures forall m | m in ProxyHandshake(p, a).out :: ProxySays(n, ProxyHandshake(p, a).next, m)
  {
  }

  lemma ProxyCleanupPhase(p: Proxy, a: ProxyAct)
    requires ProxyPhaseInv(p) && ProxyCleanup(p, a).Moved?
    ensures ProxyPhaseInv(ProxyCleanup(p, a).next)
  {
  }

  lemma ProxyCleanupGrows(p: Proxy, a: ProxyAct)
    requires ProxyPhaseInv(p) && ProxyCleanup(p, a).Moved?
    ensures ProxyGrows(p, ProxyCleanup(p, a).next)
  {
    match a
    case PBeginCleanup =>
    case PSendStop =>
    case PShutData =>
    case PRemoveRule =>
  }

  lemma ProxyCleanupKeeps(n: Nonce, p: Proxy, a: ProxyAct, net: set<Msg>)
    requires ProxyInv(n, p, net)
    requires ProxyCleanup(p, a).Moved?
    ensures var o := ProxyCleanup(p, a); ProxyGrows(p, o.next) && ProxyInv(n, o.next, net + o.out)
    ensures forall m | m in ProxyCleanup(p, a).out :: ProxySays(n, ProxyCleanup(p, a).next, m)
  {
    ProxyCleanupPhase(p, a);
    ProxyCleanupGrows(p, a);
  }

  lemma ProxyStepKeeps(n: Nonce, p: Proxy, a: ProxyAct, net: set<Msg>)
    requires ProxyInv(n, p, net)
    requires ProxyStep(p, a).Moved?
    requires a.PTakeRegister? || a.PHear? ==> a.m in net && GoodMsg(a.m)
    ensures var o := ProxyStep(p, a); ProxyGrows(p, o.next) && ProxyInv(n, o.next, net + o.out)
    ensures forall m | m in ProxyStep(p, a).out :: ProxySays(n, ProxyStep(p, a).next, m)
  {
    match a
    case PTakeRegister(_, _) | PHear(_, _, _) | PSendLearnReady => ProxyTalkKeeps(n, p, a, net);
    case PSeeMarker(_) | PStartTunnel | PQueueUp | PQueueDown | PBeginHandshake => ProxyTunnelKeeps(n, p, a, net);
    case PSendReadyAck | PFinishHandshake | PStartRaw | POpenData => ProxyHandshakeKeeps(n, p, a, net);
    case PBeginCleanup | PSendStop | PShutData | PRemoveRule => ProxyCleanupKeeps(n, p, a, net);
  }

  /** Bases come from a marker seen in the learning phase, and from nowhere else. */
  lemma ClientLearningStep(c: Client, a: ClientAct)
    requires ClientStep(c, a).Moved?
    ensures var c' := ClientStep(c, a).next;
      if a.SeeMarker? then c.phase == CLearn && a.s.flow == c.flow && IsMarker(a.s) && c'.bases == ClientLearns(a.s)
      else c'.bases == c.bases
  {
    match a
    case SendRegister | TakeRegister(_) | Hear(_) | SeeLearnReady => assert ClientTalk(c, a).next.bases == c.bases;
    case SeeMarker(_) | StartTunnel | QueueUp | QueueDown | BeginHandshake =>
    case SendReady | BeginStartAck | SendStartAck | FinishHandshake | OpenData => assert ClientHandshake(c, a).next.bases == c.bases;
    case BeginCleanup(_) | SendStop | ShutData | RemoveRule => assert ClientCleanup(c, a).next.bases == c.bases;
  }

  lemma ProxyLearningStep(p: Proxy, a: ProxyAct)
    requires ProxyStep(p, a).Moved?
    ensures var p' := ProxyStep(p, a).next;
      && (if a.PSeeMarker? then p.phase == PLearn && a.s.flow == p.flow && IsMarker(a.s) && p'.bases == ProxyLearns(a.s)
          else p'.bases == p.bases)
      && (p'.tunnelRule && !p.tunnelRule ==> a.PStartTunnel?)
  {
    match a
    case PTakeRegister(_, _) | PHear(_, _, _) | PSendLearnReady =>
      assert ProxyTalk(p, a).next.bases == p.bases && ProxyTalk(p, a).next.tunnelRule == p.tunnelRule;
    case PSeeMarker(_) | PStartTunnel | PQueueUp | PQueueDown | PBeginHandshake =>
    case PSendReadyAck | PFinishHandshake | PStartRaw | POpenData =>
      assert ProxyHandshake(p, a).next.bases == p.bases && ProxyHandshake(p, a).next.tunnelRule == p.tunnelRule;
    case PBeginCleanup | PSendStop | PShutData | PRemoveRule =>
      assert ProxyCleanup(p, a).next.bases == p.bases && !(ProxyCleanup(p, a).next.tunnelRule && !p.tunnelRule);
  }

  lemma ClientSaysTrue(s: State, n: Nonce, m: Msg)
    requires n in s.clients && ClientInv(n, s.clients[n], s.net)
    requires ClientSays(n, s.clients[n], m)
    ensures MsgInv(s, m)
  {
    if m.StartAck? {
      assert ReadyFor(s, n, m.proxy);
    }
  }

  lemma ProxySaysTrue(s: State, n: Nonce, m: Msg)
    requires n in s.proxies && ProxyInv(n, s.proxies[n], s.net)
    requires ProxySays(n, s.proxies[n], m)
    ensures MsgInv(s, m)
  {
  }

  lemma ClientInvMoreNet(n: Nonce, c: Client, net: set<Msg>, more: set<Msg>)
    requires ClientInv(n, c, net)
    ensures ClientInv(n, c, net + more)
  {
  }

  lemma ProxyInvMoreNet(n: Nonce, p: Proxy, net: set<Msg>, more: set<Msg>)
    requires ProxyInv(n, p, net)
    ensures ProxyInv(n, p, net + more)
  {
  }

  lemma OldMessagesKept(s: State, s': State)
    requires Inv(s) && Grows(s, s')
    ensures forall m | m in s.net :: MsgInv(s', m)
  {
    forall m | m in s.net ensures MsgInv(s', m) {
      MsgInvGrows(s, s', m);
    }
  }

  lemma ClientUpdateGrows(s: State, n: Nonce, c: Client, out: set<Msg>, s': State)
    requires n in s.clients && ClientGrows(s.clients[n], c)
    requires s' == s.(clients := s.clients[n := c], net := s.net + out)
    ensures Grows(s, s')
  {
  }

  lemma ProxyUpdateGrows(s: State, n: Nonce, p: Proxy, out: set<Msg>, s': State)
    requires n in s.proxies && ProxyGrows(s.proxies[n], p)
    requires s' == s.(proxies := s.proxies[n := p], net := s.net + out)
    ensures Grows(s, s')
  {
  }

  /** A client record replaced by one that grew and says the truth. */
  lemma ClientUpdateKeeps(s: State, n: Nonce, c: Client, out: set<Msg>, s': State)
    requires Inv(s) && n in s.clients
    requires s' == s.(clients := s.clients[n := c], net := s.net + out)
    requires ClientGrows(s.clients[n], c) && ClientInv(n, c, s.net + out)
    requires forall m | m in out :: ClientSays(n, c, m)
    ensures Inv(s') && Grows(s, s')
  {
    ClientUpdateGrows(s, n, c, out, s');
    OldMessagesKept(s, s');
    forall m | m in out ensures MsgInv(s', m) {
      ClientSaysTrue(s', n, m);
    }
    OtherRecordsKept(s, out);
  }

  /** More messages do no harm to any record. */
  lemma OtherRecordsKept(s: State, more: set<Msg>)
    requires Inv(s)
    ensures forall k | k in s.clients :: ClientInv(k, s.clients[k], s.net + more)
    ensures forall k | k in s.proxies :: ProxyInv(k, s.proxies[k], s.net + more)
  {
    forall k | k in s.clients ensures ClientInv(k, s.clients[k], s.net + more) {
      ClientInvMoreNet(k, s.clients[k], s.net, more);
    }
    forall k | k in s.proxies ensures ProxyInv(k, s.proxies[k], s.net + more) {
      ProxyInvMoreNet(k, s.proxies[k], s.net, more);
    }
  }

  lemma ProxyUpdateKeeps(s: State, n: Nonce, p: Proxy, out: set<Msg>, s': State)
    requires Inv(s) && n in s.proxies
    requires s' == s.(proxies := s.proxies[n := p], net := s.net + out)
    requires ProxyGrows(s.proxies[n], p) && ProxyInv(n, p, s.net + out)
    requires forall m | m in out :: ProxySays(n, p, m)
    ensures Inv(s') && Grows(s, s')
  {
    ProxyUpdateGrows(s, n, p, out, s');
    OldMessagesKept(s, s');
    forall m | m in out ensures MsgInv(s', m) {
      ProxySaysTrue(s', n, m);
    }
    OtherRecordsKept(s, out);
  }

  lemma NewRecords(n: Nonce, flow: Flow, net: set<Msg>)
    requires GoodNonce(n)
    ensures ClientInv(n, NewClient(n, flow), net) && ProxyInv(n, NewProxy(n, flow), net)
  {
  }

  lemma StartClientKeeps(s: State, n: Nonce, flow: Flow, s': State)
    requires Inv(s) && GoodNonce(n) && n !in s.clients
    requires s' == s.(clients := s.clients[n := NewClient(n, flow)])
    ensures Inv(s') && Grows(s, s')
  {
    NewRecords(n, flow, s.net);
    OldMessagesKept(s, s');
  }

  lemma StartProxyKeeps(s: State, n: Nonce, flow: Flow, s': State)
    requires Inv(s) && GoodNonce(n) && n !in s.proxies
    requires s' == s.(proxies := s.proxies[n := NewProxy(n, flow)])
    ensures Inv(s') && Grows(s, s')
  {
    NewRecords(n, flow, s.net);
    OldMessagesKept(s, s');
  }

  lemma WireGrowsKeeps(s: State, more: set<Segment>, s': State)
    requires Inv(s) && Next(s, WireGrows(more), s')
    ensures Inv(s') && Grows(s, s')
  {
    OldMessagesKept(s, s');
  }

  /** One step: the invariant is kept and no record takes anything back. */
  lemma NextKeeps(s: State, e: Event, s': State)
    requires Inv(s) && Next(s, e, s')
    ensures Inv(s') && Grows(s, s')
  {
    match e
    case ClientDoes(n, a) =>
      var o := ClientStep(s.clients[n], a);
      ClientStepKeeps(n, s.clients[n], a, s.net);
      ClientUpdateKeeps(s, n, o.next, o.out, s');
    case ProxyDoes(n, a) =>
      var o := ProxyStep(s.proxies[n], a);
      ProxyStepKeeps(n, s.proxies[n], a, s.net);
      ProxyUpdateKeeps(s, n, o.next, o.out, s');
    case StartClient(n, flow) => StartClientKeeps(s, n, flow, s');
    case StartProxy(n, flow) => StartProxyKeeps(s, n, flow, s');
    case WireGrows(more) => WireGrowsKeeps(s, more, s');
  }

  /** Induction along a run: what holds first and is passed on holds everywhere. */
  lemma {:induction false} Along(holds: seq<bool>, i: nat)
    requires i < |holds| && holds[0]
    requires forall k | 0 <= k < |holds| - 1 && holds[k] :: holds[k + 1]
    ensures holds[i]
  {
    if i > 0 {
      Along(holds, i - 1);
    }
  }

  lemma RunKeeps(states: seq<State>, events: seq<Event>, i: nat)
    requires Run(states, events)
    requires i < |states|
    ensures Inv(states[i])
  {
    forall k | 0 <= k < |events| && Inv(states[k]) ensures Inv(states[k + 1]) {
      NextKeeps(states[k], events[k], states[k + 1]);
    }
    Along(seq(|states|, k requires 0 <= k < |states| => Inv(states[k])), i);
  }

  // ---------- What holds of every run ----------

  /** Client `c` and proxy session `p` hold each other's nonces, have both learned their
      bases, and have both had their tunnel queue up. */
  predicate Joined(s: State, c: Nonce, p: Nonce) {
    && ClientHolds(s, c, p) && Holds(s, p, c)
    && Learned(s.clients[c].bases) && Learned(s.proxies[p].bases)
    && s.clients[c].queueRan && s.proxies[p].queueRan
  }

  /** Neither side opens its data plane alone: at every point of every run, an open data
      plane on either side means that this side and the one it names are joined. */
  lemma DataPlaneNeedsBoth(states: seq<State>, events: seq<Event>, i: nat)
    requires Run(states, events) && i < |states|
    ensures var s := states[i];
      && (forall c | c in s.clients && (s.clients[c].dataPlane || s.clients[c].udp.readyDone) ::
            Joined(s, c, s.clients[c].udp.proxyNonce))
      && (forall p | p in s.proxies && (s.proxies[p].dataPlane || s.proxies[p].rawStarted || s.proxies[p].udp.readyDone) ::
            Joined(s, s.proxies[p].udp.clientNonce, p))
  {
    RunKeeps(states, events, i);
    var s := states[i];
    forall c | c in s.clients && (s.clients[c].dataPlane || s.clients[c].udp.readyDone)
      ensures Joined(s, c, s.clients[c].udp.proxyNonce)
    {
      ClientReadyJoined(s, c);
    }
    forall p | p in s.proxies && (s.proxies[p].dataPlane || s.proxies[p].rawStarted || s.proxies[p].udp.readyDone)
      ensures Joined(s, s.proxies[p].udp.clientNonce, p)
    {
      ProxyReadyJoined(s, p);
    }
  }

  lemma ClientReadyJoined(s: State, c: Nonce)
    requires Inv(s) && c in s.clients
    requires s.clients[c].udp.readyAck
    requires s.clients[c].queueRan
    ensures Joined(s, c, s.clients[c].udp.proxyNonce)
  {
    assert ClientInv(c, s.clients[c], s.net);
    var p := s.clients[c].udp.proxyNonce;
    assert MsgInv(s, ReadyAck(c, p));
    assert ProxyInv(p, s.proxies[p], s.net);
  }

  lemma StartAckSent(s: State, p: Nonce)
    requires Inv(s) && p in s.proxies && s.proxies[p].udp.startAck
    ensures MsgInv(s, StartAck(p))
  {
    assert ProxyInv(p, s.proxies[p], s.net);
    assert StartAck(p) in s.net;
  }

  lemma ProxyReadyJoined(s: State, p: Nonce)
    requires Inv(s) && p in s.proxies
    requires s.proxies[p].udp.startAck
    ensures Joined(s, s.proxies[p].udp.clientNonce, p)
  {
    StartAckSent(s, p);
    var c :| c in s.clients && ReadyFor(s, c, p);
    ClientReadyJoined(s, c);
  }

  /** No marker goes out early: in every run, a client that has begun to learn, and so may
      write the marker, holds a session whose learning queue is up. */
  lemma MarkerAfterLearnReady(states: seq<State>, events: seq<Event>, i: nat, c: Nonce)
    requires Run(states, events) && i < |states| && c in states[i].clients
    requires 2 <= ClientRank(states[i].clients[c].phase) <= 8
    ensures var s := states[i]; var p := s.clients[c].udp.proxyNonce;
      Holds(s, p, c) && ProxyRank(s.proxies[p].phase) >= ProxyRank(PLearn)
  {
    RunKeeps(states, events, i);
    LearnReadySent(states[i], c);
  }

  lemma LearnReadySent(s: State, c: Nonce)
    requires Inv(s) && c in s.clients && 2 <= ClientRank(s.clients[c].phase) <= 8
    ensures MsgInv(s, LearnReady(c, s.clients[c].udp.proxyNonce))
  {
    assert ClientInv(c, s.clients[c], s.net);
    assert LearnReady(c, s.clients[c].udp.proxyNonce) in s.net;
  }

  /** STOP safety: a side that has taken a STOP holds a pair of nonces for which one of the
      two sides holding that same pair sent it. */
  lemma StopsComeFromThePair(states: seq<State>, events: seq<Event>, i: nat)
    requires Run(states, events) && i < |states|
    ensures var s := states[i];
      && (forall c | c in s.clients && s.clients[c].udp.stopReceived :: StopIssued(s, c, s.clients[c].udp.proxyNonce))
      && (forall p | p in s.proxies && s.proxies[p].udp.stopReceived :: StopIssued(s, s.proxies[p].udp.clientNonce, p))
  {
    RunKeeps(states, events, i);
    var s := states[i];
    forall c | c in s.clients && s.clients[c].udp.stopReceived ensures StopIssued(s, c, s.clients[c].udp.proxyNonce) {
      ClientStopIssued(s, c);
    }
    forall p | p in s.proxies && s.proxies[p].udp.stopReceived ensures StopIssued(s, s.proxies[p].udp.clientNonce, p) {
      ProxyStopIssued(s, p);
    }
  }

  lemma ClientStopIssued(s: State, c: Nonce)
    requires Inv(s) && c in s.clients && s.clients[c].udp.stopReceived
    ensures StopIssued(s, c, s.clients[c].udp.proxyNonce)
  {
    assert ClientInv(c, s.clients[c], s.net);
    assert MsgInv(s, Stop(c, s.clients[c].udp.proxyNonce));
  }

  lemma ProxyStopIssued(s: State, p: Nonce)
    requires Inv(s) && p in s.proxies && s.proxies[p].udp.stopReceived
    ensures StopIssued(s, s.proxies[p].udp.clientNonce, p)
  {
    assert ProxyInv(p, s.proxies[p], s.net);
    assert MsgInv(s, Stop(s.proxies[p].udp.clientNonce, p));
  }

  predicate StopIssued(s: State, c: Nonce, p: Nonce) {
    || (ClientHolds(s, c, p) && s.clients[c].stopSent)
    || (Holds(s, p, c) && s.proxies[p].stopSent)
  }

  lemma GrowsFurther(s: State, s': State, s'': State)
    requires Grows(s, s') && Grows(s', s'')
    ensures Grows(s, s'')
  {
  }

  lemma StepGrows(states: seq<State>, events: seq<Event>, i: nat)
    requires Run(states, events) && i < |events|
    ensures Grows(states[i], states[i + 1])
  {
    RunKeeps(states, events, i);
    NextKeeps(states[i], events[i], states[i + 1]);
  }

  lemma {:induction false} StepsAddUp(states: seq<State>, i: nat, j: nat)
    requires i <= j < |states|
    requires forall k | i <= k < j :: Grows(states[k], states[k + 1])
    ensures Grows(states[i], states[j])
    decreases j
  {
    if i < j {
      StepsAddUp(states, i, j - 1);
      GrowsFurther(states[i], states[j - 1], states[j]);
    }
  }

  /** Over any stretch of any run: registered nonces never change, learned bases never
      change, the received flags only latch, and phases only go forward. */
  lemma NothingTakenBack(states: seq<State>, events: seq<Event>, i: nat, j: nat)
    requires Run(states, events)
    requires i <= j < |states|
    ensures Grows(states[i], states[j])
  {
    forall k | i <= k < j ensures Grows(states[k], states[k + 1]) {
      StepGrows(states, events, k);
    }
    StepsAddUp(states, i, j);
  }

  /** The proxy's control loop does on the printed message what the message says, and answers
      with the print of the same answer. */
  predicate TextStepAgrees(u: P.ProxyView, m: Msg, from: P.Address, ok: bool) {
    var (u', reply) := P.OnMsg(u, m, from, ok);
    P.ControlStep(u, Received(Print(m)), from, ok) == (u', P.PrintReply(reply))
  }

  /** The text level: in every run, whatever was sent, printed and received by whichever
      control or register loop, the loop on text takes exactly the step of the run. */
  lemma TextLoopsTakeTheseSteps(states: seq<State>, events: seq<Event>, i: nat, m: Msg)
    requires Run(states, events) && i < |states|
    requires m in states[i].net
    ensures forall c | c in states[i].clients :: var u := states[i].clients[c].udp;
      && C.ControlStep(u, Received(Print(m))) == C.OnMsg(u, m)
      && C.RegisterStep(u, Received(Print(m))) == C.OnRegisterMsg(u, m)
    ensures forall p, from: P.Address, ok: bool | p in states[i].proxies && states[i].proxies[p].udp.registered ::
      TextStepAgrees(states[i].proxies[p].udp, m, from, ok)
    ensures forall p, from: P.Address | p in states[i].proxies :: var u := states[i].proxies[p].udp;
      P.RegisterStep(u, Received(Print(m)), from) == P.OnRegisterMsg(u, m, from)
  {
    RunKeeps(states, events, i);
    var s := states[i];
    assert MsgInv(s, m);
    forall c | c in s.clients
      ensures var u := s.clients[c].udp;
        C.ControlStep(u, Received(Print(m))) == C.OnMsg(u, m) && C.RegisterStep(u, Received(Print(m))) == C.OnRegisterMsg(u, m)
    {
      assert ClientInv(c, s.clients[c], s.net);
      C.ControlStepOnPrinted(s.clients[c].udp, m);
      C.RegisterStepOnPrinted(s.clients[c].udp, m);
    }
    forall p, from: P.Address | p in s.proxies
      ensures P.RegisterStep(s.proxies[p].udp, Received(Print(m)), from) == P.OnRegisterMsg(s.proxies[p].udp, m, from)
    {
      P.RegisterStepOnPrinted(s.proxies[p].udp, m, from);
    }
    forall p, from: P.Address, ok: bool | p in s.proxies && s.proxies[p].udp.registered
      ensures TextStepAgrees(s.proxies[p].udp, m, from, ok)
    {
      assert ProxyInv(p, s.proxies[p], s.net);
      P.ControlStepOnPrinted(s.proxies[p].udp, m, from, ok);
    }
  }
}
