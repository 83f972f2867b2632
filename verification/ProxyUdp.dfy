/** The proxy's side of the UDP control protocol. */
module ProxyUdp {
  import opened Bytes
  import opened Messages
  import opened Retry

  /** A UDP sender. */
  datatype Address = Address(ip: u32, port: u16)

  /** `ProxyReadyState`, with the flags of the session its control loop can raise. `peer`:
      the client's address, once known. */
  datatype ProxyView = ProxyView(
    clientNonce: Nonce,
    proxyNonce: Nonce,
    peer: Option<Address>,
    registered: bool,
    clientReady: bool,
    startAck: bool,
    readyDone: bool,
    stopReceived: bool,
    sessionStop: bool,
    sessionError: bool,
    stop: bool)

  function Fresh(nonce: Nonce): ProxyView {
    ProxyView("", nonce, None, false, false, false, false, false, false, false, false)
  }

  // ---------- Tests on received text ----------

  /** `parse_client_register`: the nonce, unless prefix or nonce is missing. */
  function ParseClientRegister(msg: string): Option<Nonce> {
    if !StartsWith(msg, CLIENT_REGISTER) then None
    else if After(msg, CLIENT_REGISTER) == "" then None
    else Some(After(msg, CLIENT_REGISTER))
  }

  predicate IsRegister(msg: string) {
    ParseClientRegister(msg).Some?
  }

  /** The answer to a REGISTER. */
  function AckText(s: ProxyView): string {
    PROXY_REGISTER_ACK + s.clientNonce + ":" + s.proxyNonce
  }

  predicate IsValidClientReady(msg: string, s: ProxyView) {
    s.clientNonce != "" && msg == CLIENT_TUNNEL_READY + s.clientNonce
  }

  predicate IsValidStartAck(msg: string, s: ProxyView) {
    s.proxyNonce != "" && msg == CLIENT_START_ACK + s.proxyNonce
  }

  predicate IsValidStop(msg: string, s: ProxyView) {
    s.clientNonce != "" && s.proxyNonce != "" && msg == UDP_STOP + s.clientNonce + ":" + s.proxyNonce
  }

  /** The body of `proxy_udp_control_loop` for one received text: the state, and the
      REGISTER_ACK that is sent back if the text is this session's REGISTER. When that send
      fails the session ends with an error. CLIENT_READY renews the client's address. */
  function ControlStep(s: ProxyView, msg: string, from: Address, sendOk: bool): (ProxyView, Option<string>) {
    if StartsWith(msg, UDP_STOP) then
      (if IsValidStop(msg, s) then s.(stopReceived := true, sessionStop := true, stop := true) else s, None)
    else if StartsWith(msg, CLIENT_REGISTER) then
      match ParseClientRegister(msg)
      case None => (s, None)
      case Some(c) =>
        if c != s.clientNonce then (s, None)
        else if sendOk then (s, Some(AckText(s)))
        else (s.(sessionError := true, stop := true), None)
    else if StartsWith(msg, CLIENT_TUNNEL_READY) then
      (if IsValidClientReady(msg, s) then s.(clientReady := true, peer := Some(from)) else s, None)
    else if StartsWith(msg, CLIENT_START_ACK) then
      (if IsValidStartAck(msg, s) then s.(startAck := true) else s, None)
    else (s, None)
  }

  /** The receive half of `run_proxy_udp_register`. */
  function RegisterStep(s: ProxyView, msg: string, from: Address): Option<ProxyView> {
    match ParseClientRegister(msg)
    case None => None
    case Some(c) => Some(s.(clientNonce := c, peer := Some(from), registered := true))
  }

  // ---------- The same, on messages instead of text ----------

  function OnMsg(s: ProxyView, m: Msg, from: Address, sendOk: bool): (ProxyView, Option<Msg>) {
    match m
    case Stop(c, p) => (if c == s.clientNonce && p == s.proxyNonce then s.(stopReceived := true, sessionStop := true, stop := true) else s, None)
    case Register(c) =>
      if c != s.clientNonce then (s, None)
      else if sendOk then (s, Some(RegisterAck(c, s.proxyNonce)))
      else (s.(sessionError := true, stop := true), None)
    case ClientReady(c) => (if c == s.clientNonce then s.(clientReady := true, peer := Some(from)) else s, None)
    case StartAck(p) => (if p == s.proxyNonce then s.(startAck := true) else s, None)
    case _ => (s, None)
  }

  function OnRegisterMsg(s: ProxyView, m: Msg, from: Address): Option<ProxyView> {
    match m
    case Register(c) => Some(s.(clientNonce := c, peer := Some(from), registered := true))
    case _ => None
  }

  function PrintReply(r: Option<Msg>): Option<string> {
    match r
    case None => None
    case Some(m) => Some(Print(m))
  }

  /** On every good message, printed, sent and received, the loop on text does what the
      message says and answers with the print of the same answer. */
  lemma ControlStepOnPrinted(s: ProxyView, m: Msg, from: Address, sendOk: bool)
    requires GoodNonce(s.clientNonce) && GoodNonce(s.proxyNonce)
    requires GoodMsg(m)
    ensures ControlStep(s, Received(Print(m)), from, sendOk)
         == (OnMsg(s, m, from, sendOk).0, PrintReply(OnMsg(s, m, from, sendOk).1))
  {
    NotCut(m);
    var text := Print(m);
    PrintDispatch(m, KStop);
    PrintDispatch(m, KRegister);
    PrintDispatch(m, KClientReady);
    PrintDispatch(m, KStartAck);
    match m {
      case Stop(c, p) =>
        StopText(c, p, s.clientNonce, s.proxyNonce);
        StepOnText(s, text, m, from, sendOk);
      case Register(c) => RegisterText(s, text, c, from, sendOk);
      case ClientReady(c) =>
        OneNonceText(CLIENT_TUNNEL_READY, c, s.clientNonce);
        StepOnText(s, text, m, from, sendOk);
      case StartAck(p) =>
        OneNonceText(CLIENT_START_ACK, p, s.proxyNonce);
        StepOnText(s, text, m, from, sendOk);
      case _ => StepOnText(s, text, m, from, sendOk);
    }
  }

  /** The step, once the text's branch and its validity are known. */
  lemma StepOnText(s: ProxyView, text: string, m: Msg, from: Address, sendOk: bool)
    requires !m.Register? && !StartsWith(text, CLIENT_REGISTER)
    requires m.Stop? <==> StartsWith(text, UDP_STOP)
    requires m.ClientReady? <==> StartsWith(text, CLIENT_TUNNEL_READY)
    requires m.StartAck? <==> StartsWith(text, CLIENT_START_ACK)
    requires m.Stop? ==> (IsValidStop(text, s) <==> m.client == s.clientNonce && m.proxy == s.proxyNonce)
    requires m.ClientReady? ==> (IsValidClientReady(text, s) <==> m.client == s.clientNonce)
    requires m.StartAck? ==> (IsValidStartAck(text, s) <==> m.proxy == s.proxyNonce)
    ensures ControlStep(s, text, from, sendOk) == (OnMsg(s, m, from, sendOk).0, None)
    ensures OnMsg(s, m, from, sendOk).1 == None
  {
  }

  /** A REGISTER with a nonce is answered with the whole pair if the nonce is the session's. */
  lemma RegisterText(s: ProxyView, text: string, c: Nonce, from: Address, sendOk: bool)
    requires !StartsWith(text, UDP_STOP) && StartsWith(text, CLIENT_REGISTER)
    requires After(text, CLIENT_REGISTER) == c && c != ""
    ensures ControlStep(s, text, from, sendOk)
         == (OnMsg(s, Register(c), from, sendOk).0, PrintReply(OnMsg(s, Register(c), from, sendOk).1))
  {
    assert ParseClientRegister(text) == Some(c);
    assert AckText(s) == PROXY_REGISTER_ACK + (s.clientNonce + ":" + s.proxyNonce);
  }

  lemma OneNonceText(prefix: string, c: Nonce, c': Nonce)
    ensures prefix + c == prefix + c' <==> c == c'
  {
    assert (prefix + c)[|prefix|..] == c && (prefix + c')[|prefix|..] == c';
  }

  /** A STOP text names exactly one pair of nonces. */
  lemma StopText(c: Nonce, p: Nonce, c': Nonce, p': Nonce)
    requires ':' !in c && ':' !in c'
    ensures Print(Stop(c, p)) == UDP_STOP + c' + ":" + p' <==> c == c' && p == p'
  {
    var body := c' + ":" + p';
    assert UDP_STOP + c' + ":" + p' == UDP_STOP + body;
    assert (UDP_STOP + body)[|UDP_STOP|..] == body;
    assert Print(Stop(c, p))[|UDP_STOP|..] == c + ":" + p;
    if c + ":" + p == c' + ":" + p' {
      SplitUnique(':', c, p, c', p');
    }
  }

  lemma RegisterStepOnPrinted(s: ProxyView, m: Msg, from: Address)
    requires GoodMsg(m)
    ensures RegisterStep(s, Received(Print(m)), from) == OnRegisterMsg(s, m, from)
  {
    NotCut(m);
    PrintDispatch(m, KRegister);
  }

  lemma StopBody(s: ProxyView)
    ensures Print(Stop(s.clientNonce, s.proxyNonce)) == UDP_STOP + s.clientNonce + ":" + s.proxyNonce
  {
    assert UDP_STOP + s.clientNonce + ":" + s.proxyNonce == UDP_STOP + (s.clientNonce + ":" + s.proxyNonce);
  }

  lemma OwnStop(s: ProxyView, msg: string)
    requires s.clientNonce != "" && s.proxyNonce != ""
    ensures StartsWith(msg, UDP_STOP) && IsValidStop(msg, s) <==> msg == Print(Stop(s.clientNonce, s.proxyNonce))
  {
    StopBody(s);
    PrintDispatch(Stop(s.clientNonce, s.proxyNonce), KStop);
  }

  lemma OwnRegister(s: ProxyView, msg: string)
    requires s.clientNonce != ""
    ensures !StartsWith(msg, UDP_STOP) && ParseClientRegister(msg) == Some(s.clientNonce) <==> msg == Print(Register(s.clientNonce))
  {
    PrintDispatch(Register(s.clientNonce), KStop);
    PrintDispatch(Register(s.clientNonce), KRegister);
    if StartsWith(msg, CLIENT_REGISTER) {
      assert msg == CLIENT_REGISTER + After(msg, CLIENT_REGISTER);
      if StartsWith(msg, UDP_STOP) {
        PrefixFree(msg, KRegister, KStop);
      }
    }
  }

  /** Of all texts, garbage included, the control loop raises its stop flags on exactly the
      STOP of this very pair of nonces, and on this session's own REGISTER when it cannot be
      answered. */
  lemma OnlyOwnStopStops(s: ProxyView, msg: string, from: Address, sendOk: bool)
    requires s.clientNonce != "" && s.proxyNonce != "" && !s.stop && !s.sessionStop
    ensures var s' := ControlStep(s, msg, from, sendOk).0;
      && (s'.sessionStop <==> msg == Print(Stop(s.clientNonce, s.proxyNonce)))
      && (s'.stop && !s'.sessionStop <==> !sendOk && msg == Print(Register(s.clientNonce)))
  {
    OwnStop(s, msg);
    OwnRegister(s, msg);
    if !StartsWith(msg, UDP_STOP) && !StartsWith(msg, CLIENT_REGISTER) {
      assert ParseClientRegister(msg) == None;
    }
  }

  /** Of all texts exactly the REGISTERs of a non-empty nonce are one. */
  lemma ParseExactly(msg: string, c: Nonce)
    ensures ParseClientRegister(msg) == Some(c) <==> c != "" && msg == Print(Register(c))
  {
    if StartsWith(msg, CLIENT_REGISTER) {
      assert msg == CLIENT_REGISTER + After(msg, CLIENT_REGISTER);
    }
    PrintDispatch(Register(c), KRegister);
  }

  lemma OwnReady(s: ProxyView, msg: string)
    requires s.clientNonce != ""
    ensures StartsWith(msg, CLIENT_TUNNEL_READY) && IsValidClientReady(msg, s) <==> msg == Print(ClientReady(s.clientNonce))
  {
    PrintDispatch(ClientReady(s.clientNonce), KClientReady);
  }

  lemma OwnStartAck(s: ProxyView, msg: string)
    requires s.proxyNonce != ""
    ensures StartsWith(msg, CLIENT_START_ACK) && IsValidStartAck(msg, s) <==> msg == Print(StartAck(s.proxyNonce))
  {
    PrintDispatch(StartAck(s.proxyNonce), KStartAck);
  }

  /** A text starts with one of the prefixes at most. */
  lemma OnePrefix(msg: string)
    ensures StartsWith(msg, UDP_STOP) ==>
      !StartsWith(msg, CLIENT_REGISTER) && !StartsWith(msg, CLIENT_TUNNEL_READY) && !StartsWith(msg, CLIENT_START_ACK)
    ensures StartsWith(msg, CLIENT_REGISTER) ==> !StartsWith(msg, CLIENT_TUNNEL_READY) && !StartsWith(msg, CLIENT_START_ACK)
    ensures StartsWith(msg, CLIENT_TUNNEL_READY) ==> !StartsWith(msg, CLIENT_START_ACK)
  {
    forall j: Kind, k: Kind | StartsWith(msg, Prefix(j)) && StartsWith(msg, Prefix(k)) ensures j == k {
      PrefixFree(msg, j, k);
    }
    assert Prefix(KStop) == UDP_STOP && Prefix(KRegister) == CLIENT_REGISTER;
    assert Prefix(KClientReady) == CLIENT_TUNNEL_READY && Prefix(KStartAck) == CLIENT_START_ACK;
  }

  predicate NoncesKnown(s: ProxyView) {
    s.clientNonce != "" && s.proxyNonce != ""
  }

  /** What one text does, for all texts, garbage included: exactly the STOP, CLIENT_READY and
      START_ACK of this session and the REGISTER of its client do anything. */
  lemma ControlStepExactly(s: ProxyView, msg: string, from: Address, sendOk: bool)
    requires NoncesKnown(s)
    ensures var c, p := s.clientNonce, s.proxyNonce;
      var stops, readies, registers := msg == Print(Stop(c, p)), msg == Print(ClientReady(c)), msg == Print(Register(c));
      ControlStep(s, msg, from, sendOk) == (s.(
        stopReceived := s.stopReceived || stops, sessionStop := s.sessionStop || stops,
        stop := s.stop || stops || (registers && !sendOk), sessionError := s.sessionError || (registers && !sendOk),
        clientReady := s.clientReady || readies, peer := if readies then Some(from) else s.peer,
        startAck := s.startAck || msg == Print(StartAck(p))),
        if registers && sendOk then Some(AckText(s)) else None)
  {
    OwnStop(s, msg);
    OwnRegister(s, msg);
    OwnReady(s, msg);
    OwnStartAck(s, msg);
    OnePrefix(msg);
  }

  // ---------- The loops ----------

  /** One pass of the control loop: whether it finds a flag raised by another thread or a
      signal, then the text, its sender, and whether an answer to it can be sent. */
  datatype Inbound = Inbound(stopped: bool, text: string, from: Address, sendOk: bool)

  /** A text with the address it goes to or comes from. */
  datatype Datagram = Datagram(peer: Address, text: string)

  predicate Over(s: ProxyView, inbox: seq<Inbound>) {
    inbox == [] || inbox[0].stopped || s.stop || s.sessionStop || s.sessionError
  }

  /** The control loop over what it receives: the state and the answers sent. */
  function ControlRun(s: ProxyView, inbox: seq<Inbound>): (ProxyView, seq<Datagram>)
    decreases |inbox|
  {
    if Over(s, inbox) then (s, [])
    else
      var (s', reply) := ControlStep(s, inbox[0].text, inbox[0].from, inbox[0].sendOk);
      var (last, replies) := ControlRun(s', inbox[1..]);
      (last, (if reply.Some? then [Datagram(inbox[0].from, reply.value)] else []) + replies)
  }

  lemma ControlRunCons(s: ProxyView, inbox: seq<Inbound>, s': ProxyView, reply: Option<string>)
    requires !Over(s, inbox)
    requires (s', reply) == ControlStep(s, inbox[0].text, inbox[0].from, inbox[0].sendOk)
    ensures ControlRun(s, inbox).0 == ControlRun(s', inbox[1..]).0
    ensures ControlRun(s, inbox).1 == (if reply.Some? then [Datagram(inbox[0].from, reply.value)] else []) + ControlRun(s', inbox[1..]).1
  {
  }

  /** An entry that ends the loop by what it says. */
  predicate Ends(s: ProxyView, entry: Inbound) {
    || entry.text == Print(Stop(s.clientNonce, s.proxyNonce))
    || (entry.text == Print(Register(s.clientNonce)) && !entry.sendOk)
  }

  /** The loop gets to entry `i`. */
  predicate Reached(s: ProxyView, inbox: seq<Inbound>, i: nat)
    requires i < |inbox|
  {
    && !s.stop && !s.sessionStop && !s.sessionError
    && (forall j | 0 <= j <= i :: !inbox[j].stopped)
    && (forall j | 0 <= j < i :: !Ends(s, inbox[j]))
  }

  /** The loop gets to an entry with this text. */
  predicate Heard(s: ProxyView, inbox: seq<Inbound>, text: string) {
    exists i | 0 <= i < |inbox| :: Reached(s, inbox, i) && inbox[i].text == text
  }

  lemma ReachedCons(s: ProxyView, inbox: seq<Inbound>, s': ProxyView, i: nat)
    requires !Over(s, inbox) && NoncesKnown(s) && i < |inbox| - 1
    requires s' == ControlStep(s, inbox[0].text, inbox[0].from, inbox[0].sendOk).0
    ensures Reached(s', inbox[1..], i) <==> Reached(s, inbox, i + 1)
  {
    var rest := inbox[1..];
    ControlStepExactly(s, inbox[0].text, inbox[0].from, inbox[0].sendOk);
    if Reached(s', rest, i) {
      assert !Ends(s, inbox[0]);
      assert forall j | 0 < j <= i + 1 :: inbox[j] == rest[j - 1];
    }
    if Reached(s, inbox, i + 1) {
      assert !Ends(s, inbox[0]);
      assert forall j | 0 <= j <= i :: rest[j] == inbox[j + 1];
    }
  }

  lemma HeardCons(s: ProxyView, inbox: seq<Inbound>, s': ProxyView, text: string)
    requires !Over(s, inbox) && NoncesKnown(s)
    requires s' == ControlStep(s, inbox[0].text, inbox[0].from, inbox[0].sendOk).0
    ensures Heard(s, inbox, text) <==> inbox[0].text == text || Heard(s', inbox[1..], text)
  {
    var rest := inbox[1..];
    assert Reached(s, inbox, 0);
    forall i | 0 <= i < |rest| ensures Reached(s', rest, i) <==> Reached(s, inbox, i + 1) {
      ReachedCons(s, inbox, s', i);
    }
    if Heard(s, inbox, text) && inbox[0].text != text {
      var i :| 0 <= i < |inbox| && Reached(s, inbox, i) && inbox[i].text == text;
      assert rest[i - 1].text == text && Reached(s', rest, i - 1);
    }
    if Heard(s', rest, text) {
      var i :| 0 <= i < |rest| && Reached(s', rest, i) && rest[i].text == text;
      assert Reached(s, inbox, i + 1) && inbox[i + 1].text == text;
    }
  }

  /** The flags and nonces the loop ends with, in terms of the texts it gets to. */
  lemma {:induction false} ControlRunExactly(s: ProxyView, inbox: seq<Inbound>)
    requires NoncesKnown(s)
    ensures var c, p, last := s.clientNonce, s.proxyNonce, ControlRun(s, inbox).0;
      && (last.stopReceived <==> s.stopReceived || Heard(s, inbox, Print(Stop(c, p))))
      && (last.clientReady <==> s.clientReady || Heard(s, inbox, Print(ClientReady(c))))
      && (last.startAck <==> s.startAck || Heard(s, inbox, Print(StartAck(p))))
      && last.clientNonce == c && last.proxyNonce == p && last.registered == s.registered && last.readyDone == s.readyDone
    decreases |inbox|
  {
    if Over(s, inbox) {
      assert forall i | 0 <= i < |inbox| :: !Reached(s, inbox, i);
    } else {
      var s' := ControlStep(s, inbox[0].text, inbox[0].from, inbox[0].sendOk).0;
      ControlStepExactly(s, inbox[0].text, inbox[0].from, inbox[0].sendOk);
      ControlRunCons(s, inbox, s', ControlStep(s, inbox[0].text, inbox[0].from, inbox[0].sendOk).1);
      HeardCons(s, inbox, s', Print(Stop(s.clientNonce, s.proxyNonce)));
      HeardCons(s, inbox, s', Print(ClientReady(s.clientNonce)));
      HeardCons(s, inbox, s', Print(StartAck(s.proxyNonce)));
      ControlRunExactly(s', inbox[1..]);
    }
  }

  datatype Round = Round(stopped: bool, now: nat, received: Option<Datagram>, sendOk: bool)

  /** The state once the session has its nonce. */
  function Begun(s: ProxyView, nonce: Nonce): ProxyView {
    if s.proxyNonce == "" then s.(proxyNonce := nonce) else s
  }

  /** None of the texts received in the first `n` rounds is a REGISTER. */
  predicate NoRegister(rounds: seq<Round>, n: nat)
    requires n <= |rounds|
  {
    forall i | 0 <= i < n && rounds[i].received.Some? :: !IsRegister(rounds[i].received.value.text)
  }

  datatype Look = Look(stopped: bool, now: nat, sendOk: bool, clientReady: bool, startAck: bool, stopReceived: bool)

  /** Registration is complete. */
  predicate CanShakeHands(s: ProxyView) {
    s.registered && s.clientNonce != "" && s.proxyNonce != "" && s.peer.Some?
  }

  /** Why the handshake loop ends undone: a stop, the timeout, a failed send. */
  predicate LookGivesUp(start: nat, look: Look, sentAt: seq<nat>) {
    || look.stopped || look.stopReceived
    || (!look.startAck && (look.now - start >= TIMEOUT_MS || (look.clientReady && look.now >= NextSend(sentAt) && !look.sendOk)))
  }

  /** The clock in those rounds that see the CLIENT_READY flag. */
  function ReadyTimes(looks: seq<Look>): seq<nat> {
    if looks == [] then []
    else
      var before := ReadyTimes(looks[..|looks| - 1]);
      var last := looks[|looks| - 1];
      if last.clientReady then before + [last.now] else before
  }

  /** One more round, as the timer sees it. */
  lemma ReadySnoc(start: nat, looks: seq<Look>, k: nat)
    requires k < |looks| && InTime(start, ReadyTimes(looks[..k])) && start <= looks[k].now < start + TIMEOUT_MS
    ensures InTime(start, ReadyTimes(looks[..k + 1])) && |SendTimes(ReadyTimes(looks[..k + 1]))| <= 40
    ensures var before := SendTimes(ReadyTimes(looks[..k]));
      SendTimes(ReadyTimes(looks[..k + 1]))
      == if looks[k].clientReady && looks[k].now >= NextSend(before) then before + [looks[k].now] else before
  {
    assert looks[..k + 1][..k] == looks[..k];
    SendTimesSnoc(ReadyTimes(looks[..k]), looks[k].now);
    AtMostForty(start, ReadyTimes(looks[..k + 1]));
  }

  class ProxyReadyState {
    var clientNonce: Nonce
    var proxyNonce: Nonce
    var peer: Option<Address>
    var registered: bool
    var clientReady: bool
    var startAck: bool
    var readyDone: bool
    var stopReceived: bool
    var sessionStop: bool
    var sessionError: bool
    var stop: bool

    function View(): ProxyView
      reads this
    {
      ProxyView(clientNonce, proxyNonce, peer, registered, clientReady, startAck, readyDone, stopReceived, sessionStop, sessionError, stop)
    }

    constructor ()
      ensures View() == Fresh("")
    {
      clientNonce, proxyNonce, peer := "", "", None;
      registered, clientReady, startAck, readyDone := false, false, false, false;
      stopReceived, sessionStop, sessionError, stop := false, false, false, false;
    }

    /** One pass of the control loop. */
    method Handle(msg: string, from: Address, sendOk: bool) returns (reply: Option<string>)
      modifies this
      ensures (View(), reply) == ControlStep(old(View()), msg, from, sendOk)
    {
      reply := None;
      if StartsWith(msg, UDP_STOP) {
        if IsValidStop(msg, View()) {
          stopReceived := true;
          sessionStop := true;
          stop := true;
        }
        return;
      }
      if StartsWith(msg, CLIENT_REGISTER) {
        var parsed := ParseClientRegister(msg);
        if parsed.Some? && parsed.value == clientNonce {
          if sendOk {
            reply := Some(AckText(View()));
          } else {
            sessionError := true;
            stop := true;
          }
        }
        return;
      }
      if StartsWith(msg, CLIENT_TUNNEL_READY) {
        if IsValidClientReady(msg, View()) {
          clientReady := true;
          peer := Some(from);
        }
        return;
      }
      if StartsWith(msg, CLIENT_START_ACK) {
        if IsValidStartAck(msg, View()) {
          startAck := true;
        }
      }
    }

    /** The first text of an inbox. */
    method HandleFirst(inbox: seq<Inbound>) returns (replies: seq<Datagram>)
      requires !Over(View(), inbox)
      modifies this
      ensures ControlRun(old(View()), inbox).0 == ControlRun(View(), inbox[1..]).0
      ensures ControlRun(old(View()), inbox).1 == replies + ControlRun(View(), inbox[1..]).1
    {
      ghost var before := View();
      var reply := Handle(inbox[0].text, inbox[0].from, inbox[0].sendOk);
      replies := if reply.Some? then [Datagram(inbox[0].from, reply.value)] else [];
      ControlRunCons(before, inbox, View(), reply);
    }

    /** `proxy_udp_control_loop`, whose thread is started after registration. */
    method ProxyUdpControlLoop(inbox: seq<Inbound>) returns (replies: seq<Datagram>)
      modifies this
      ensures View() == ControlRun(old(View()), inbox).0
      ensures replies == ControlRun(old(View()), inbox).1
      ensures NoncesKnown(old(View())) ==> var s, c, p := old(View()), old(clientNonce), old(proxyNonce);
        && (stopReceived <==> s.stopReceived || Heard(s, inbox, Print(Stop(c, p))))
        && (clientReady <==> s.clientReady || Heard(s, inbox, Print(ClientReady(c))))
        && (startAck <==> s.startAck || Heard(s, inbox, Print(StartAck(p))))
    {
      if NoncesKnown(View()) {
        ControlRunExactly(View(), inbox);
      }
      replies := [];
      ghost var all := ControlRun(View(), inbox);
      var rest := inbox;
      while !Over(View(), rest)
        invariant ControlRun(View(), rest).0 == all.0
        invariant replies + ControlRun(View(), rest).1 == all.1
        decreases |rest|
      {
        ghost var said := replies;
        var now := HandleFirst(rest);
        rest := rest[1..];
        replies := replies + now;
        assert replies + ControlRun(View(), rest).1 == said + (now + ControlRun(View(), rest).1);
      }
      assert ControlRun(View(), rest) == (View(), []);
    }

    /** The answer to a text received while unregistered: none unless it is a REGISTER. */
    method AnswerRegister(received: Datagram, sendOk: bool) returns (taken: bool, ok: bool, reply: seq<Datagram>)
      modifies this
      ensures taken <==> IsRegister(received.text)
      ensures taken ==> RegisterStep(old(View()), received.text, received.peer) == Some(View())
      ensures !taken ==> View() == old(View())
      ensures ok <==> taken && sendOk
      ensures reply == if ok then [Datagram(received.peer, AckText(View()))] else []
    {
      reply := [];
      var parsed := ParseClientRegister(received.text);
      taken := parsed.Some?;
      ok := taken && sendOk;
      if taken {
        clientNonce := parsed.value;
        peer := Some(received.peer);
        registered := true;
      }
      if ok {
        reply := [Datagram(received.peer, AckText(View()))];
      }
    }

    /** `run_proxy_udp_register`: the first REGISTER text, whoever sent it, fixes the client
        nonce and address, and is answered there with the pair; texts before it change
        nothing. */
    method RunProxyUdpRegister(fdOk: bool, nonce: Nonce, start: nat, rounds: seq<Round>)
      returns (ok: bool, taken: bool, reply: seq<Datagram>, at: nat)
      requires forall i | 0 <= i < |rounds| :: start <= rounds[i].now
      modifies this
      ensures at <= |rounds|
      ensures !fdOk ==> !taken && at == 0 && View() == old(View())
      ensures fdOk && !taken ==> View() == Begun(old(View()), nonce) && NoRegister(rounds, at)
      ensures fdOk && !taken ==> at == |rounds| || rounds[at].stopped || rounds[at].now - start >= TIMEOUT_MS
      ensures taken ==> at > 0 && NoRegister(rounds, at - 1) && rounds[at - 1].received.Some?
      ensures taken ==> var received := rounds[at - 1].received.value;
        RegisterStep(Begun(old(View()), nonce), received.text, received.peer) == Some(View())
      ensures forall i | 0 <= i < at :: !rounds[i].stopped && rounds[i].now < start + TIMEOUT_MS
      ensures ok <==> taken && rounds[at - 1].sendOk
      ensures ok ==> registered && peer.Some? && reply == [Datagram(peer.value, AckText(View()))]
      ensures !ok ==> reply == []
    {
      ok, taken, reply, at := false, false, [], 0;
      if !fdOk {
        return;
      }
      if proxyNonce == "" {
        proxyNonce := nonce;
      }
      ghost var begun := View();
      while at < |rounds| && !rounds[at].stopped
        invariant 0 <= at <= |rounds|
        invariant View() == begun && !taken && !ok && reply == [] && NoRegister(rounds, at)
        invariant forall i | 0 <= i < at :: !rounds[i].stopped && rounds[i].now < start + TIMEOUT_MS
      {
        var round := rounds[at];
        if round.now - start >= TIMEOUT_MS {
          break;
        }
        at := at + 1;
        if round.received.Some? {
          taken, ok, reply := AnswerRegister(round.received.value, round.sendOk);
          if taken {
            return;
          }
        }
      }
    }

    /** `run_proxy_ready_handshake`: among the first `at` rounds, in each that sees the
        CLIENT_READY flag READY_ACK is sent if the timer says so; the call is done at the
        first round, round `at`, that sees the START_ACK flag and no stop. All of them go to
        the address known at the start, also when CLIENT_READY renews it meanwhile. */
    method RunProxyReadyHandshake(fdOk: bool, start: nat, looks: seq<Look>)
      returns (ok: bool, sentAt: seq<nat>, to: Option<Address>, at: nat)
      requires forall i | 0 <= i < |looks| :: start <= looks[i].now
      modifies this
      ensures at <= |looks| && InTime(start, ReadyTimes(looks[..at])) && |sentAt| <= 40
      ensures sentAt == SendTimes(ReadyTimes(looks[..at]))
      ensures View() == old(View()).(readyDone := ok || old(readyDone))
      ensures at > 0 || ok ==> fdOk && CanShakeHands(View())
      ensures to == if fdOk && CanShakeHands(View()) then old(peer) else None
      ensures forall i | 0 <= i < at :: !looks[i].startAck && !looks[i].stopReceived && !looks[i].stopped
      ensures ok ==> at < |looks| && looks[at].startAck && !looks[at].stopReceived && !looks[at].stopped
      ensures !ok && fdOk && CanShakeHands(View()) && at < |looks| ==> LookGivesUp(start, looks[at], sentAt)
    {
      ok, sentAt, to, at := false, [], None, 0;
      if !fdOk || !CanShakeHands(View()) {
        return;
      }
      to := peer;
      while at < |looks| && !looks[at].stopped
        invariant 0 <= at <= |looks|
        invariant InTime(start, ReadyTimes(looks[..at])) && sentAt == SendTimes(ReadyTimes(looks[..at])) && |sentAt| <= 40
        invariant View() == old(View())
        invariant forall i | 0 <= i < at :: !looks[i].startAck && !looks[i].stopReceived && !looks[i].stopped
      {
        var look := looks[at];
        if look.stopReceived {
          break;
        }
        if look.startAck {
          readyDone := true;
          ok := true;
          break;
        }
        if look.now - start >= TIMEOUT_MS {
          break;
        }
        if look.clientReady && look.now >= NextSend(sentAt) {
          if !look.sendOk {
            break;
          }
          sentAt := sentAt + [look.now];
        }
        ReadySnoc(start, looks, at);
        at := at + 1;
      }
    }
  }
}
