/** The client's side of the UDP control protocol: its tests on received text, its control
    loop, and its two sending loops. */
module ClientUdp {
  import opened Bytes
  import opened Messages
  import opened Retry

  /** `ClientReadyState`, with the flags of the session its control loop can raise. */
  datatype ClientView = ClientView(
    clientNonce: Nonce,
    proxyNonce: Nonce,
    registered: bool,
    learnReady: bool,
    readyAck: bool,
    readyDone: bool,
    stopReceived: bool,
    sessionStop: bool,
    stop: bool)

  function Fresh(nonce: Nonce): ClientView {
    ClientView(nonce, "", false, false, false, false, false, false, false)
  }

  // ---------- Tests on received text ----------

  predicate NoncesKnown(s: ClientView) {
    s.clientNonce != "" && s.proxyNonce != ""
  }

  predicate IsValidStop(msg: string, s: ClientView) {
    NoncesKnown(s) && msg == UDP_STOP + s.clientNonce + ":" + s.proxyNonce
  }

  predicate IsValidLearnReady(msg: string, s: ClientView) {
    && StartsWith(msg, PROXY_LEARN_READY)
    && NoncesKnown(s)
    && After(msg, PROXY_LEARN_READY) == s.clientNonce + ":" + s.proxyNonce
  }

  predicate IsValidReadyAck(msg: string, s: ClientView) {
    && StartsWith(msg, PROXY_TUNNEL_READY_ACK)
    && NoncesKnown(s)
    && After(msg, PROXY_TUNNEL_READY_ACK) == s.clientNonce + ":" + s.proxyNonce
  }

  /** The body of `client_udp_control_loop` for one received text. */
  function ControlStep(s: ClientView, msg: string): ClientView {
    if StartsWith(msg, UDP_STOP) then
      if IsValidStop(msg, s) then s.(stopReceived := true, sessionStop := true, stop := true) else s
    else if StartsWith(msg, PROXY_LEARN_READY) then
      if IsValidLearnReady(msg, s) then s.(learnReady := true) else s
    else if StartsWith(msg, PROXY_TUNNEL_READY_ACK) then
      if IsValidReadyAck(msg, s) then s.(readyAck := true) else s
    else s
  }

  /** The receive half of `run_client_udp_register`: the state if the text is the awaited
      answer. */
  function RegisterStep(s: ClientView, msg: string): Option<ClientView> {
    if !StartsWith(msg, PROXY_REGISTER_ACK) then None
    else
      var body := After(msg, PROXY_REGISTER_ACK);
      if !StartsWith(body, s.clientNonce + ":") then None
      else
        var proxyNonce := After(body, s.clientNonce + ":");
        if proxyNonce == "" then None
        else Some(s.(proxyNonce := proxyNonce, registered := true))
  }

  // ---------- The same, on messages instead of text ----------

  function OnMsg(s: ClientView, m: Msg): ClientView {
    match m
    case Stop(c, p) => if c == s.clientNonce && p == s.proxyNonce then s.(stopReceived := true, sessionStop := true, stop := true) else s
    case LearnReady(c, p) => if c == s.clientNonce && p == s.proxyNonce then s.(learnReady := true) else s
    case ReadyAck(c, p) => if c == s.clientNonce && p == s.proxyNonce then s.(readyAck := true) else s
    case _ => s
  }

  function OnRegisterMsg(s: ClientView, m: Msg): Option<ClientView> {
    match m
    case RegisterAck(c, p) => if c == s.clientNonce then Some(s.(proxyNonce := p, registered := true)) else None
    case _ => None
  }

  /** Two bodies of two nonces are equal exactly when both nonces are. */
  lemma SameBody(c: Nonce, p: Nonce, c': Nonce, p': Nonce)
    requires ':' !in c && ':' !in c'
    ensures c + ":" + p == c' + ":" + p' <==> c == c' && p == p'
  {
    if c + ":" + p == c' + ":" + p' {
      SplitUnique(':', c, p, c', p');
    }
  }

  /** On every good message, printed, sent and received, the loop on text does what the
      message says, whatever the state of the session. */
  lemma ControlStepOnPrinted(s: ClientView, m: Msg)
    requires GoodNonce(s.clientNonce)
    requires GoodMsg(m)
    ensures ControlStep(s, Received(Print(m))) == OnMsg(s, m)
  {
    NotCut(m);
    PrintDispatch(m, KStop);
    PrintDispatch(m, KLearnReady);
    PrintDispatch(m, KReadyAck);
    match m {
      case Stop(c, p) =>
        SameBody(c, p, s.clientNonce, s.proxyNonce);
        StopText(s, c, p);
      case LearnReady(c, p) => SameBody(c, p, s.clientNonce, s.proxyNonce);
      case ReadyAck(c, p) => SameBody(c, p, s.clientNonce, s.proxyNonce);
      case _ =>
    }
  }

  lemma StopText(s: ClientView, c: Nonce, p: Nonce)
    ensures Print(Stop(c, p)) == UDP_STOP + s.clientNonce + ":" + s.proxyNonce <==> c + ":" + p == s.clientNonce + ":" + s.proxyNonce
  {
    var body := s.clientNonce + ":" + s.proxyNonce;
    assert UDP_STOP + s.clientNonce + ":" + s.proxyNonce == UDP_STOP + body;
    assert (UDP_STOP + body)[|UDP_STOP|..] == body;
    assert Print(Stop(c, p))[|UDP_STOP|..] == c + ":" + p;
  }

  /** Registration on text accepts a good message exactly when it is this client's
      REGISTER_ACK, and takes over exactly the printed proxy nonce. */
  lemma RegisterStepOnPrinted(s: ClientView, m: Msg)
    requires GoodNonce(s.clientNonce)
    requires GoodMsg(m)
    ensures RegisterStep(s, Received(Print(m))) == OnRegisterMsg(s, m)
  {
    NotCut(m);
    PrintDispatch(m, KRegisterAck);
    match m {
      case RegisterAck(c, p) => AckSplit(s.clientNonce, c, p);
      case _ =>
    }
  }

  /** No other text stops a registered client: of all texts, garbage included, the control
      loop raises its stop flags on exactly one, the STOP of this very pair of nonces. */
  lemma OnlyOwnStopStops(s: ClientView, msg: string)
    requires NoncesKnown(s) && !s.stop && !s.sessionStop
    ensures var s' := ControlStep(s, msg);
      s'.stop || s'.sessionStop <==> msg == Print(Stop(s.clientNonce, s.proxyNonce))
  {
    StopText(s, s.clientNonce, s.proxyNonce);
    if msg == Print(Stop(s.clientNonce, s.proxyNonce)) {
      PrintDispatch(Stop(s.clientNonce, s.proxyNonce), KStop);
    }
  }

  /** Of all texts exactly the REGISTER_ACKs to this client with a non-empty proxy nonce are an
      answer, and that nonce is taken over. */
  lemma RegisterStepExactly(s: ClientView, msg: string, p: Nonce)
    ensures RegisterStep(s, msg) == Some(s.(proxyNonce := p, registered := true))
       <==> p != "" && msg == Print(RegisterAck(s.clientNonce, p))
  {
    var own := s.clientNonce + ":";
    var m := RegisterAck(s.clientNonce, p);
    PrintDispatch(m, KRegisterAck);
    assert Body(m) == own + p && (own + p)[|own|..] == p;
    if StartsWith(msg, PROXY_REGISTER_ACK) {
      var body := After(msg, PROXY_REGISTER_ACK);
      assert msg == PROXY_REGISTER_ACK + body;
      if StartsWith(body, own) {
        assert body == own + After(body, own);
      }
    }
  }

  /** A prefix, two nonces: the only text that passes such a test. */
  lemma OwnText(msg: string, prefix: string, c: Nonce, p: Nonce)
    ensures StartsWith(msg, prefix) && After(msg, prefix) == c + ":" + p <==> msg == prefix + (c + ":" + p)
  {
    if StartsWith(msg, prefix) {
      assert msg == prefix + After(msg, prefix);
    }
    assert (prefix + (c + ":" + p))[|prefix|..] == c + ":" + p;
  }

  /** What one text does, for all texts, garbage included: exactly the STOP, the LEARN_READY and
      the READY_ACK of this pair of nonces do anything. */
  lemma ControlStepExactly(s: ClientView, msg: string)
    requires NoncesKnown(s)
    ensures var c, p := s.clientNonce, s.proxyNonce; var stops := msg == Print(Stop(c, p));
      ControlStep(s, msg) == s.(
        stopReceived := s.stopReceived || stops, sessionStop := s.sessionStop || stops, stop := s.stop || stops,
        learnReady := s.learnReady || msg == Print(LearnReady(c, p)),
        readyAck := s.readyAck || msg == Print(ReadyAck(c, p)))
  {
    var c, p := s.clientNonce, s.proxyNonce;
    StopText(s, c, p);
    OwnText(msg, PROXY_LEARN_READY, c, p);
    OwnText(msg, PROXY_TUNNEL_READY_ACK, c, p);
    Dispatch(Stop(c, p));
    Dispatch(LearnReady(c, p));
    Dispatch(ReadyAck(c, p));
  }

  lemma Dispatch(m: Msg)
    ensures StartsWith(Print(m), UDP_STOP) <==> m.Stop?
    ensures StartsWith(Print(m), PROXY_LEARN_READY) <==> m.LearnReady?
    ensures StartsWith(Print(m), PROXY_TUNNEL_READY_ACK) <==> m.ReadyAck?
  {
    PrintDispatch(m, KStop);
    PrintDispatch(m, KLearnReady);
    PrintDispatch(m, KReadyAck);
  }

  // ---------- The loops ----------

  /** One pass of the control loop: whether it finds a flag raised by another thread or a
      signal, then the text. */
  datatype Inbound = Inbound(stopped: bool, text: string)

  predicate Over(s: ClientView, inbox: seq<Inbound>) {
    inbox == [] || inbox[0].stopped || s.stop || s.sessionStop
  }

  /** The control loop over what it receives. */
  function ControlRun(s: ClientView, inbox: seq<Inbound>): ClientView
    decreases |inbox|
  {
    if Over(s, inbox) then s else ControlRun(ControlStep(s, inbox[0].text), inbox[1..])
  }

  /** The loop gets to entry `i`: nothing up to it, another thread's flag or an own STOP,
      ends it. */
  predicate Reached(s: ClientView, inbox: seq<Inbound>, i: nat)
    requires i < |inbox|
  {
    && !s.stop && !s.sessionStop
    && (forall j | 0 <= j <= i :: !inbox[j].stopped)
    && (forall j | 0 <= j < i :: inbox[j].text != Print(Stop(s.clientNonce, s.proxyNonce)))
  }

  /** The loop gets to an entry with this text. */
  predicate Heard(s: ClientView, inbox: seq<Inbound>, text: string) {
    exists i | 0 <= i < |inbox| :: Reached(s, inbox, i) && inbox[i].text == text
  }

  lemma HeardCons(s: ClientView, inbox: seq<Inbound>, text: string)
    requires !Over(s, inbox) && NoncesKnown(s)
    ensures var s' := ControlStep(s, inbox[0].text);
      Heard(s, inbox, text) <==> inbox[0].text == text || Heard(s', inbox[1..], text)
  {
    var s', rest := ControlStep(s, inbox[0].text), inbox[1..];
    ControlStepExactly(s, inbox[0].text);
    assert Reached(s, inbox, 0);
    forall i | 0 <= i < |rest| ensures Reached(s', rest, i) <==> Reached(s, inbox, i + 1) {
      ReachedCons(s, inbox, i);
    }
    if Heard(s, inbox, text) && inbox[0].text != text {
      var i :| 0 <= i < |inbox| && Reached(s, inbox, i) && inbox[i].text == text;
      assert rest[i - 1].text == text && Reached(s', rest, i - 1);
    }
    if Heard(s', rest, text) {
      var i :| 0 <= i < |rest| && Reached(s', rest, i) && rest[i].text == text;
      assert Reached(s, inbox, i + 1) && inbox[i + 1].text == text;
    }
  }

  lemma ReachedCons(s: ClientView, inbox: seq<Inbound>, i: nat)
    requires !Over(s, inbox) && NoncesKnown(s) && i < |inbox| - 1
    ensures Reached(ControlStep(s, inbox[0].text), inbox[1..], i) <==> Reached(s, inbox, i + 1)
  {
    var s', rest := ControlStep(s, inbox[0].text), inbox[1..];
    ControlStepExactly(s, inbox[0].text);
    if Reached(s', rest, i) {
      assert inbox[0].text != Print(Stop(s.clientNonce, s.proxyNonce));
      assert forall j | 0 < j <= i + 1 :: inbox[j] == rest[j - 1];
    }
    if Reached(s, inbox, i + 1) {
      assert inbox[0].text != Print(Stop(s.clientNonce, s.proxyNonce));
      assert forall j | 0 <= j <= i :: rest[j] == inbox[j + 1];
    }
  }

  /** What the loop ends with, in terms of the texts it gets to: each flag is up exactly if it
      was before or its own text is among them; nothing else changes. */
  lemma {:induction false} ControlRunExactly(s: ClientView, inbox: seq<Inbound>)
    requires NoncesKnown(s)
    ensures var c, p := s.clientNonce, s.proxyNonce; var stops := Heard(s, inbox, Print(Stop(c, p)));
      ControlRun(s, inbox) == s.(
        stopReceived := s.stopReceived || stops, sessionStop := s.sessionStop || stops, stop := s.stop || stops,
        learnReady := s.learnReady || Heard(s, inbox, Print(LearnReady(c, p))),
        readyAck := s.readyAck || Heard(s, inbox, Print(ReadyAck(c, p))))
    decreases |inbox|
  {
    var c, p := s.clientNonce, s.proxyNonce;
    if Over(s, inbox) {
      assert forall i | 0 <= i < |inbox| :: !Reached(s, inbox, i);
    } else {
      ControlStepExactly(s, inbox[0].text);
      HeardCons(s, inbox, Print(Stop(c, p)));
      HeardCons(s, inbox, Print(LearnReady(c, p)));
      HeardCons(s, inbox, Print(ReadyAck(c, p)));
      ControlRunExactly(ControlStep(s, inbox[0].text), inbox[1..]);
    }
  }

  /** One round of the register loop: is a stop requested, what the clock says, whether
      `sendto` succeeds, and what is received before the round ends. */
  datatype Round = Round(stopped: bool, now: nat, sendOk: bool, received: Option<string>)

  /** The state once the client has its nonce. */
  function Begun(s: ClientView, nonce: Nonce): ClientView {
    if s.clientNonce == "" then s.(clientNonce := nonce) else s
  }

  /** Nothing received in the first `n` rounds is an answer, and no stop is requested. */
  predicate NoAnswer(s: ClientView, rounds: seq<Round>, n: nat)
    requires n <= |rounds|
  {
    forall i | 0 <= i < n :: !rounds[i].stopped && (rounds[i].received.Some? ==> !Answers(s, rounds[i].received.value))
  }

  predicate Answers(s: ClientView, msg: string) {
    RegisterStep(s, msg).Some?
  }

  /** Why the register loop ends without an answer: a stop, the timeout, a failed send. */
  predicate GivesUp(start: nat, round: Round, sentAt: seq<nat>) {
    round.stopped || round.now - start >= TIMEOUT_MS || (round.now >= NextSend(sentAt) && !round.sendOk)
  }

  /** One round of the handshake loop: as above, with the two flags read under the lock. */
  datatype Look = Look(stopped: bool, now: nat, sendOk: bool, readyAck: bool, stopReceived: bool)

  /** Registration is complete. */
  predicate CanShakeHands(s: ClientView) {
    s.registered && NoncesKnown(s)
  }

  predicate LookGivesUp(start: nat, look: Look, sentAt: seq<nat>) {
    || look.stopped || look.stopReceived
    || (!look.readyAck && (look.now - start >= TIMEOUT_MS || (look.now >= NextSend(sentAt) && !look.sendOk)))
  }

  function Times(rounds: seq<Round>): seq<nat> {
    seq(|rounds|, i requires 0 <= i < |rounds| => rounds[i].now)
  }

  function LookTimes(looks: seq<Look>): seq<nat> {
    seq(|looks|, i requires 0 <= i < |looks| => looks[i].now)
  }

  /** One more round of the register loop, as its timer sees it. */
  lemma TimesSnoc(start: nat, rounds: seq<Round>, k: nat)
    requires k < |rounds| && InTime(start, Times(rounds[..k])) && start <= rounds[k].now < start + TIMEOUT_MS
    ensures InTime(start, Times(rounds[..k + 1])) && |SendTimes(Times(rounds[..k + 1]))| <= 40
    ensures var before := SendTimes(Times(rounds[..k]));
      SendTimes(Times(rounds[..k + 1])) == if rounds[k].now >= NextSend(before) then before + [rounds[k].now] else before
  {
    assert Times(rounds[..k + 1]) == Times(rounds[..k]) + [rounds[k].now];
    SendTimesSnoc(Times(rounds[..k]), rounds[k].now);
    AtMostForty(start, Times(rounds[..k + 1]));
  }

  lemma LookTimesSnoc(start: nat, looks: seq<Look>, k: nat)
    requires k < |looks| && InTime(start, LookTimes(looks[..k])) && start <= looks[k].now < start + TIMEOUT_MS
    ensures InTime(start, LookTimes(looks[..k + 1])) && |SendTimes(LookTimes(looks[..k + 1]))| <= 40
    ensures var before := SendTimes(LookTimes(looks[..k]));
      SendTimes(LookTimes(looks[..k + 1])) == if looks[k].now >= NextSend(before) then before + [looks[k].now] else before
  {
    assert LookTimes(looks[..k + 1]) == LookTimes(looks[..k]) + [looks[k].now];
    SendTimesSnoc(LookTimes(looks[..k]), looks[k].now);
    AtMostForty(start, LookTimes(looks[..k + 1]));
  }

  class ClientReadyState {
    var clientNonce: Nonce
    var proxyNonce: Nonce
    var registered: bool
    var learnReady: bool
    var readyAck: bool
    var readyDone: bool
    var stopReceived: bool
    var sessionStop: bool
    var stop: bool

    function View(): ClientView
      reads this
    {
      ClientView(clientNonce, proxyNonce, registered, learnReady, readyAck, readyDone, stopReceived, sessionStop, stop)
    }

    constructor ()
      ensures View() == Fresh("")
    {
      clientNonce, proxyNonce := "", "";
      registered, learnReady, readyAck, readyDone, stopReceived, sessionStop, stop :=
        false, false, false, false, false, false, false;
    }

    /** One pass of the control loop. */
    method Handle(msg: string)
      modifies this
      ensures View() == ControlStep(old(View()), msg)
    {
      if StartsWith(msg, UDP_STOP) {
        if IsValidStop(msg, View()) {
          stopReceived := true;
          sessionStop := true;
          stop := true;
        }
      } else if StartsWith(msg, PROXY_LEARN_READY) {
        if IsValidLearnReady(msg, View()) {
          learnReady := true;
        }
      } else if StartsWith(msg, PROXY_TUNNEL_READY_ACK) {
        if IsValidReadyAck(msg, View()) {
          readyAck := true;
        }
      }
    }

    /** `client_udp_control_loop`, whose thread is started after registration: of all texts it
        gets to, up to the first STOP of its own pair or another thread's flag, exactly those
        of its own pair raise their flags, and nothing else changes. */
    method ClientUdpControlLoop(inbox: seq<Inbound>)
      modifies this
      ensures View() == ControlRun(old(View()), inbox)
      ensures NoncesKnown(old(View())) ==> var s, c, p := old(View()), old(clientNonce), old(proxyNonce);
        && (stopReceived <==> s.stopReceived || Heard(s, inbox, Print(Stop(c, p))))
        && (learnReady <==> s.learnReady || Heard(s, inbox, Print(LearnReady(c, p))))
        && (readyAck <==> s.readyAck || Heard(s, inbox, Print(ReadyAck(c, p))))
        && clientNonce == c && proxyNonce == p && registered == s.registered && readyDone == s.readyDone
    {
      if NoncesKnown(View()) {
        ControlRunExactly(View(), inbox);
      }
      ghost var last := ControlRun(View(), inbox);
      var rest := inbox;
      while !Over(View(), rest)
        invariant ControlRun(View(), rest) == last
        decreases |rest|
      {
        Handle(rest[0].text);
        rest := rest[1..];
      }
    }

    method TakeAnswer(msg: string) returns (taken: bool)
      modifies this
      ensures taken <==> Answers(old(View()), msg)
      ensures taken ==> RegisterStep(old(View()), msg) == Some(View())
      ensures !taken ==> View() == old(View())
    {
      if !StartsWith(msg, PROXY_REGISTER_ACK) {
        return false;
      }
      var body := After(msg, PROXY_REGISTER_ACK);
      if !StartsWith(body, clientNonce + ":") {
        return false;
      }
      var answered := After(body, clientNonce + ":");
      if answered == "" {
        return false;
      }
      proxyNonce := answered;
      registered := true;
      taken := true;
    }

    /** `run_client_udp_register`: in each of the first `at` rounds, all of them before the
        timeout, REGISTER is sent if the timer says so; the call succeeds at the first text
        that `RegisterStep` accepts and changes nothing before. `addressOk`: the descriptor is
        open and the proxy's address is one. */
    method RunClientUdpRegister(addressOk: bool, nonce: Nonce, start: nat, rounds: seq<Round>)
      returns (ok: bool, sentAt: seq<nat>, at: nat)
      requires forall i | 0 <= i < |rounds| :: start <= rounds[i].now
      modifies this
      ensures at <= |rounds| && InTime(start, Times(rounds[..at])) && |sentAt| <= 40
      ensures sentAt == SendTimes(Times(rounds[..at]))
      ensures !addressOk ==> !ok && at == 0 && View() == old(View())
      ensures addressOk && !ok ==> View() == Begun(old(View()), nonce) && NoAnswer(View(), rounds, at)
      ensures addressOk && !ok ==> at == |rounds| || GivesUp(start, rounds[at], sentAt)
      ensures ok ==> at > 0 && NoAnswer(Begun(old(View()), nonce), rounds, at - 1) && !rounds[at - 1].stopped
      ensures ok ==> rounds[at - 1].received.Some? && RegisterStep(Begun(old(View()), nonce), rounds[at - 1].received.value) == Some(View())
    {
      ok, sentAt, at := false, [], 0;
      if !addressOk {
        return;
      }
      if clientNonce == "" {
        clientNonce := nonce;
      }
      ghost var begun := View();
      while at < |rounds| && !rounds[at].stopped
        invariant 0 <= at <= |rounds|
        invariant InTime(start, Times(rounds[..at])) && sentAt == SendTimes(Times(rounds[..at])) && |sentAt| <= 40
        invariant View() == begun && NoAnswer(begun, rounds, at)
      {
        var round := rounds[at];
        if round.now - start >= TIMEOUT_MS {
          break;
        }
        if round.now >= NextSend(sentAt) {
          if !round.sendOk {
            break;
          }
          sentAt := sentAt + [round.now];
        }
        TimesSnoc(start, rounds, at);
        at := at + 1;
        if round.received.Some? {
          ok := TakeAnswer(round.received.value);
          if ok {
            return;
          }
        }
      }
    }

    /** `run_client_ready_handshake`: in each of the first `at` rounds CLIENT_READY is sent
        if the timer says so; the round that sees the READY_ACK flag sends three START_ACKs
        instead, unless a stop or a failed send ends it. `startAcks` holds for each
        START_ACK whether it can be sent. */
    method RunClientReadyHandshake(addressOk: bool, start: nat, looks: seq<Look>, startAcks: seq<bool>)
      returns (ok: bool, sentAt: seq<nat>, acksSent: nat, at: nat)
      requires forall i | 0 <= i < |looks| :: start <= looks[i].now
      requires |startAcks| == 3
      modifies this
      ensures at <= |looks| && InTime(start, LookTimes(looks[..at])) && |sentAt| <= 40
      ensures sentAt == SendTimes(LookTimes(looks[..at]))
      ensures View() == old(View()).(readyDone := ok || old(readyDone))
      ensures at > 0 || acksSent > 0 ==> addressOk && CanShakeHands(View())
      ensures acksSent > 0 ==> at < |looks| && looks[at].readyAck && !looks[at].stopReceived && !looks[at].stopped
      ensures ok <==> acksSent == 3
      ensures acksSent <= 3 && forall k | 0 <= k < acksSent :: startAcks[k]
      ensures forall i | 0 <= i < at :: !looks[i].stopped && !looks[i].stopReceived && !looks[i].readyAck
      ensures !ok && addressOk && CanShakeHands(View()) && at < |looks| ==>
        LookGivesUp(start, looks[at], sentAt) || (looks[at].readyAck && acksSent < 3 && !startAcks[acksSent])
    {
      ok, sentAt, acksSent, at := false, [], 0, 0;
      if !CanShakeHands(View()) || !addressOk {
        return;
      }
      while at < |looks| && !looks[at].stopped
        invariant 0 <= at <= |looks|
        invariant InTime(start, LookTimes(looks[..at])) && sentAt == SendTimes(LookTimes(looks[..at])) && |sentAt| <= 40
        invariant View() == old(View()) && acksSent == 0
        invariant forall i | 0 <= i < at :: !looks[i].stopped && !looks[i].stopReceived && !looks[i].readyAck
      {
        var look := looks[at];
        if look.stopReceived {
          break;
        }
        if look.readyAck {
          while acksSent < 3 && startAcks[acksSent]
            invariant 0 <= acksSent <= 3 && forall k | 0 <= k < acksSent :: startAcks[k]
          {
            acksSent := acksSent + 1;
          }
          if acksSent == 3 {
            readyDone := true;
            ok := true;
          }
          break;
        }
        if look.now - start >= TIMEOUT_MS {
          break;
        }
        if look.now >= NextSend(sentAt) {
          if !look.sendOk {
            break;
          }
          sentAt := sentAt + [look.now];
        }
        LookTimesSnoc(start, looks, at);
        at := at + 1;
      }
    }
  }
}
