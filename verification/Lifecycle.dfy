/** One run of the LTE client's `main`: what it opens, starts and installs on the host, and
    that its cleanup takes back exactly that, whichever step fails. */
module Lifecycle {
  import opened Bytes
  import opened Routes

  /** The client's two netfilter rules, and everybody else's. */
  datatype Rule = LearningRule | TunnelRule | OtherRule(id: nat)

  datatype Thread = ControlThread | TunnelThread | RawThread

  /** The calls that change rules and threads, for the record. */
  datatype Call = Inserted(rule: Rule) | Deleted(rule: Rule) | Started(t: Thread) | Joined(t: Thread)

  /** The operating system as far as `main` uses it: open descriptors, running threads with
      the descriptors they may use, netfilter rules. */
  class Host {
    var open: set<int>
    var running: map<Thread, set<int>>
    var rules: multiset<Rule>
    var log: seq<Call>

    predicate InUse(fd: int)
      reads this
    {
      exists t | t in running :: fd in running[t]
    }

    /** Any call that returns a new descriptor, the lowest not in use, or -1. */
    method Open(ok: bool) returns (fd: int)
      modifies this`open
      ensures if ok then fd >= 0 && fd !in old(open) && open == old(open) + {fd} else fd == -1 && open == old(open)
    {
      if !ok {
        return -1;
      }
      fd := 0;
      ghost var above := open;
      while fd in open
        invariant fd >= 0 && forall x | x in open && x >= fd :: x in above
        decreases |above|
      {
        above := above - {fd};
        fd := fd + 1;
      }
      open := open + {fd};
    }

    /** A descriptor is closed only while it is open and no running thread may use it. */
    method Close(fd: int)
      requires fd in open && !InUse(fd)
      modifies this`open
      ensures open == old(open) - {fd}
    {
      open := open - {fd};
    }

    method Start(t: Thread, fds: set<int>)
      requires t !in running && fds <= open
      modifies this`running, this`log
      ensures running == old(running)[t := fds] && log == old(log) + [Started(t)]
    {
      running := running[t := fds];
      log := log + [Started(t)];
    }

    method Lend(t: Thread, fd: int)
      requires t in running && fd in open
      modifies this`running
      ensures running == old(running)[t := old(running)[t] + {fd}]
    {
      running := running[t := running[t] + {fd}];
    }

    method Join(t: Thread)
      requires t in running
      modifies this`running, this`log
      ensures running == old(running) - {t} && log == old(log) + [Joined(t)]
    {
      running := running - {t};
      log := log + [Joined(t)];
    }

    method Insert(rule: Rule, commandOk: bool) returns (ok: bool)
      modifies this`rules, this`log
      ensures ok == commandOk
      ensures rules == if ok then old(rules) + multiset{rule} else old(rules)
      ensures log == if ok then old(log) + [Inserted(rule)] else old(log)
    {
      ok := commandOk;
      if ok {
        log := log + [Inserted(rule)];
        rules := rules + multiset{rule};
      }
    }

    method Delete(rule: Rule)
      modifies this`rules, this`log
      ensures rules == old(rules) - multiset{rule} && log == old(log) + [Deleted(rule)]
    {
      log := log + [Deleted(rule)];
      rules := rules - multiset{rule};
    }
  }

  /** What happens outside the process: for each step of `main` whether it succeeds, and the
      words `ip route show default` prints. */
  datatype Outcomes = Outcomes(
    connected: bool, udpOpened: bool, rawConfig: bool, registered: bool, learnReady: bool,
    learningRule: bool, learned: bool, tunnelRule: bool, queueReady: bool, handshake: bool, settled: bool,
    tunOpened: bool, tunSetUp: bool, nonblocking: bool, words: Option<seq<string>>, proxyRoute: bool,
    defaultReplaced: bool, stillOn: bool, rawOpened: bool, stoppedByUser: bool)

  predicate Connects(o: Outcomes) {
    o.connected && o.udpOpened && o.rawConfig && o.registered && o.learnReady
  }

  predicate Tunnels(o: Outcomes) {
    o.learningRule && o.learned && o.tunnelRule && o.queueReady && o.handshake && o.settled
  }

  /** The steps after the handshake, on a host with these routes. */
  predicate Opens(o: Outcomes, others: map<string, NextHop>, prefix: string) {
    Replaces(o, others, prefix) && o.stillOn && o.rawOpened && o.stoppedByUser
  }

  /** Everything up to the replacement of the default route. */
  predicate Replaces(o: Outcomes, others: map<string, NextHop>, prefix: string) {
    o.tunOpened && o.tunSetUp && o.nonblocking && SetsRoutes(o, others, prefix)
  }

  predicate SetsRoutes(o: Outcomes, others: map<string, NextHop>, prefix: string) {
    && o.words.Some? && Scan(o.words.value, NO_SNAPSHOT).gateway != "" && Scan(o.words.value, NO_SNAPSHOT).ifname != ""
    && o.proxyRoute && prefix !in others && o.defaultReplaced
  }

  /** The calls on the way up, as far as the outcomes let it get: the learning rule is there
      while learning and gone before the tunnel rule comes, and each thread starts after what
      it needs. */
  function ConnectCalls(o: Outcomes): seq<Call> {
    if o.connected && o.udpOpened && o.rawConfig && o.registered then [Started(ControlThread)] else []
  }

  function BaseCalls(o: Outcomes): seq<Call> {
    if !o.learningRule then []
    else if !o.learned then [Inserted(LearningRule)]
    else [Inserted(LearningRule), Deleted(LearningRule)]
  }

  function TunnelCalls(o: Outcomes): seq<Call> {
    if o.learningRule && o.learned && o.tunnelRule then [Inserted(TunnelRule), Started(TunnelThread)] else []
  }

  function DataCalls(o: Outcomes, others: map<string, NextHop>, prefix: string): seq<Call> {
    if Replaces(o, others, prefix) && o.stillOn && o.rawOpened then [Started(RawThread)] else []
  }

  function UpCalls(o: Outcomes, others: map<string, NextHop>, prefix: string): seq<Call> {
    ConnectCalls(o)
    + (if Connects(o) then BaseCalls(o) + TunnelCalls(o) else [])
    + (if Connects(o) && Tunnels(o) then DataCalls(o, others, prefix) else [])
  }

  /** And on the way down, whatever was left. */
  function DownCallsAfter(o: Outcomes, others: map<string, NextHop>, prefix: string): seq<Call> {
    var up := UpCalls(o, others, prefix);
    When(Started(RawThread) in up, Joined(RawThread))
    + (When(Inserted(TunnelRule) in up, Deleted(TunnelRule))
       + When(Inserted(LearningRule) in up && Deleted(LearningRule) !in up, Deleted(LearningRule)))
    + (When(Started(TunnelThread) in up, Joined(TunnelThread)) + When(Started(ControlThread) in up, Joined(ControlThread)))
  }

  /** Which calls the way up contains. */
  lemma InUpCalls(o: Outcomes, others: map<string, NextHop>, prefix: string)
    ensures var up := UpCalls(o, others, prefix);
      && (Started(ControlThread) in up <==> ConnectCalls(o) != [])
      && (Inserted(LearningRule) in up <==> Connects(o) && o.learningRule)
      && (Deleted(LearningRule) in up <==> Connects(o) && o.learningRule && o.learned)
      && (Inserted(TunnelRule) in up <==> Connects(o) && TunnelCalls(o) != [])
      && (Started(TunnelThread) in up <==> Connects(o) && TunnelCalls(o) != [])
      && (Started(RawThread) in up <==> Connects(o) && Tunnels(o) && DataCalls(o, others, prefix) != [])
  {
  }

  function When(c: bool, call: Call): seq<Call> {
    if c then [call] else []
  }

  /** The host at entry. */
  datatype Entry = Entry(open: set<int>, rules: multiset<Rule>, table: RouteTable)

  class ClientMain {
    const host: Host
    const router: Router
    const route: RouteSnapshot

    var proxyFd: int
    var udpFd: int
    var tunFd: int
    var rawSendFd: int
    var learningRuleInstalled: bool
    var tunnelRuleInstalled: bool
    var tunnelThreadStarted: bool
    var udpControlThreadStarted: bool
    var rawThreadStarted: bool

    constructor (host: Host, router: Router)
      ensures this.host == host && this.router == router && fresh(route)
      ensures Idle() && proxyFd == -1 && udpFd == -1 && !udpControlThreadStarted
    {
      this.host, this.router := host, router;
      route := new RouteSnapshot();
      proxyFd, udpFd, tunFd, rawSendFd := -1, -1, -1, -1;
      learningRuleInstalled, tunnelRuleInstalled := false, false;
      tunnelThreadStarted, udpControlThreadStarted, rawThreadStarted := false, false, false;
    }

    /** Nothing of the tunnel and the data plane is there yet. */
    predicate Idle()
      reads this, route
    {
      && tunFd == -1 && rawSendFd == -1 && !learningRuleInstalled && !tunnelRuleInstalled
      && !tunnelThreadStarted && !rawThreadStarted && DataIdle()
    }

    predicate DataIdle()
      reads this, route
    {
      tunFd == -1 && rawSendFd == -1 && !rawThreadStarted
      && route.View() == NO_SNAPSHOT && route.addedRoutes == [] && !route.defaultRouteChanged
    }

    function Held(): set<int>
      reads `proxyFd, `udpFd, `tunFd, `rawSendFd
    {
      {proxyFd, udpFd, tunFd, rawSendFd} - {-1}
    }

    predicate Distinct()
      reads `proxyFd, `udpFd, `tunFd, `rawSendFd
    {
      && proxyFd >= -1 && udpFd >= -1 && tunFd >= -1 && rawSendFd >= -1
      && (proxyFd >= 0 ==> proxyFd != udpFd && proxyFd != tunFd && proxyFd != rawSendFd)
      && (udpFd >= 0 ==> udpFd != tunFd && udpFd != rawSendFd)
      && (tunFd >= 0 ==> tunFd != rawSendFd)
    }

    /** The books: what the variables say is held is what the host has beyond `e`. */
    predicate Descriptors(e: Entry)
      reads `proxyFd, `udpFd, `tunFd, `rawSendFd, host`open
    {
      host.open == e.open + Held() && e.open !! Held() && Distinct()
    }

    predicate Threads()
      reads `tunnelThreadStarted, `udpControlThreadStarted, `rawThreadStarted, host`running
    {
      && (ControlThread in host.running <==> udpControlThreadStarted)
      && (TunnelThread in host.running <==> tunnelThreadStarted)
      && (RawThread in host.running <==> rawThreadStarted)
    }

    predicate Rules(e: Entry)
      reads `learningRuleInstalled, `tunnelRuleInstalled, host`rules
    {
      host.rules == e.rules + (if learningRuleInstalled then multiset{LearningRule} else multiset{})
                            + (if tunnelRuleInstalled then multiset{TunnelRule} else multiset{})
    }

    predicate Routes(e: Entry)
      reads router, route
    {
      && route.TakenBack(router.table).others == e.table.others
      && router.table.defaults == if route.defaultRouteChanged then e.table.defaults[0 := TUN_ROUTE] else e.table.defaults
    }

    predicate Ledger(e: Entry)
      reads this, host, router, route
    {
      Descriptors(e) && Threads() && Rules(e) && Routes(e)
    }

    /** Up to the wait for LEARN_READY. */
    method Connect(o: Outcomes, ghost e: Entry) returns (ok: bool)
      requires Ledger(e) && Idle() && proxyFd == -1 && udpFd == -1 && !udpControlThreadStarted
      modifies this`proxyFd, this`udpFd, this`udpControlThreadStarted, host`open, host`running, host`log
      ensures Ledger(e) && Idle()
      ensures ok <==> Connects(o)
      ensures ok ==> proxyFd >= 0 && udpFd >= 0
      ensures udpControlThreadStarted <==> ConnectCalls(o) != []
      ensures host.log == old(host.log) + ConnectCalls(o)
    {
      ok := false;
      proxyFd := host.Open(o.connected);
      assert Descriptors(e);
      if proxyFd < 0 {
        return;
      }
      udpFd := host.Open(o.udpOpened);
      assert Descriptors(e);
      if udpFd < 0 {
        return;
      }
      if !o.rawConfig || !o.registered {
        return;
      }
      host.Start(ControlThread, {udpFd});
      udpControlThreadStarted := true;
      ok := o.learnReady;
    }

    /** Learning, under a rule of its own that is gone afterwards. */
    method LearnBase(o: Outcomes, ghost e: Entry) returns (ok: bool)
      requires Rules(e) && !learningRuleInstalled && !tunnelRuleInstalled
      modifies this`learningRuleInstalled, host`rules, host`log
      ensures Rules(e)
      ensures ok <==> o.learningRule && o.learned
      ensures ok ==> host.rules == e.rules
      ensures learningRuleInstalled <==> o.learningRule && !o.learned
      ensures host.log == old(host.log) + BaseCalls(o)
    {
      ok := false;
      var inserted := host.Insert(LearningRule, o.learningRule);
      if !inserted {
        return;
      }
      learningRuleInstalled := true;
      if !o.learned {
        return;
      }
      host.Delete(LearningRule);
      learningRuleInstalled := false;
      ok := true;
    }

    /** Learning, the tunnel queue and the handshake. */
    method Learn(o: Outcomes, ghost e: Entry) returns (ok: bool)
      requires Ledger(e) && Idle()
      modifies this`learningRuleInstalled, this`tunnelRuleInstalled, this`tunnelThreadStarted, host`running, host`rules, host`log
      ensures Ledger(e) && DataIdle()
      ensures tunnelRuleInstalled == tunnelThreadStarted == (o.learningRule && o.learned && o.tunnelRule)
      ensures learningRuleInstalled <==> o.learningRule && !o.learned
      ensures host.log == old(host.log) + BaseCalls(o) + TunnelCalls(o)
      ensures ok <==> Tunnels(o)
    {
      ok := LearnBase(o, e);
      if !ok {
        return;
      }
      tunnelRuleInstalled := host.Insert(TunnelRule, o.tunnelRule);
      if !tunnelRuleInstalled {
        return false;
      }
      host.Start(TunnelThread, {});
      tunnelThreadStarted := true;
      ok := o.queueReady && o.handshake && o.settled;
    }

    /** The TUN, the routes and the data plane. */
    method OpenData(o: Outcomes, prefix: string, ghost e: Entry) returns (ok: bool)
      requires Ledger(e) && DataIdle() && tunnelThreadStarted
      modifies this`tunFd, this`rawSendFd, this`rawThreadStarted, host`open, host`running, host`log, router, route
      ensures Ledger(e)
      ensures ok <==> Opens(o, e.table.others, prefix)
      ensures rawThreadStarted <==> DataCalls(o, e.table.others, prefix) != []
      ensures rawThreadStarted ==> tunFd >= 0 && rawSendFd >= 0 && tunFd in host.running[TunnelThread]
      ensures host.log == old(host.log) + DataCalls(o, e.table.others, prefix)
      ensures route.defaultRouteChanged <==> Replaces(o, e.table.others, prefix)
      ensures route.defaultRouteChanged ==> route.View() == Scan(o.words.value, NO_SNAPSHOT)
    {
      ok := PrepareTun(o, prefix, e);
      if !ok || !o.stillOn {
        return false;
      }
      OpenRawSend(o.rawOpened, e);
      if rawSendFd < 0 {
        return false;
      }
      StartData();
      ok := o.stoppedByUser;
    }

    method PrepareTun(o: Outcomes, prefix: string, ghost e: Entry) returns (ok: bool)
      requires Descriptors(e) && Routes(e) && DataIdle()
      modifies this`tunFd, host`open, router, route
      ensures Descriptors(e) && Routes(e)
      ensures ok <==> Replaces(o, e.table.others, prefix)
      ensures ok <==> route.defaultRouteChanged
      ensures ok ==> tunFd >= 0 && tunFd in host.open && route.View() == Scan(o.words.value, NO_SNAPSHOT)
    {
      OpenTun(o.tunOpened, e);
      if tunFd < 0 || !o.tunSetUp || !o.nonblocking {
        return false;
      }
      ok := SetRoutes(o, prefix, e);
    }

    method StartData()
      requires Threads() && tunnelThreadStarted && !rawThreadStarted && tunFd in host.open && rawSendFd in host.open
      modifies this`rawThreadStarted, host`running, host`log
      ensures Threads() && rawThreadStarted && tunFd in host.running[TunnelThread]
      ensures host.log == old(host.log) + [Started(RawThread)]
    {
      host.Lend(TunnelThread, tunFd);
      host.Start(RawThread, {tunFd, rawSendFd});
      rawThreadStarted := true;
    }

    method OpenTun(ok: bool, ghost e: Entry)
      requires Descriptors(e) && tunFd == -1
      modifies this`tunFd, host`open
      ensures Descriptors(e) && (tunFd >= 0 <==> ok) && (ok ==> tunFd in host.open)
    {
      tunFd := host.Open(ok);
    }

    method OpenRawSend(ok: bool, ghost e: Entry)
      requires Descriptors(e) && rawSendFd == -1
      modifies this`rawSendFd, host`open
      ensures Descriptors(e) && (rawSendFd >= 0 <==> ok) && (ok ==> rawSendFd in host.open)
      ensures old(host.open) <= host.open
    {
      rawSendFd := host.Open(ok);
    }

    method SetRoutes(o: Outcomes, prefix: string, ghost e: Entry) returns (ok: bool)
      requires Routes(e)
      requires route.View() == NO_SNAPSHOT && route.addedRoutes == [] && !route.defaultRouteChanged
      modifies router, route
      ensures Routes(e)
      ensures ok <==> SetsRoutes(o, e.table.others, prefix)
      ensures route.defaultRouteChanged ==> o.words.Some? && route.View() == Scan(o.words.value, NO_SNAPSHOT)
      ensures ok <==> route.defaultRouteChanged
    {
      ok := route.LoadDefaultRoute(o.words);
      if ok {
        ok := route.AddRoute(router, prefix, o.proxyRoute);
      }
      if ok {
        ok := route.ReplaceDefaultRouteToTun(router, o.defaultReplaced);
      }
    }

    lemma NoThreadLeft(running: map<Thread, set<int>>)
      requires ControlThread !in running && TunnelThread !in running && RawThread !in running
      ensures running == map[]
    {
      forall t | t in running ensures false {
        match t
        case ControlThread =>
        case TunnelThread =>
        case RawThread =>
      }
    }

    /** The calls of the cleanup, from the flags. */
    function RuleCalls(): seq<Call>
      reads `tunnelRuleInstalled, `learningRuleInstalled
    {
      When(tunnelRuleInstalled, Deleted(TunnelRule)) + When(learningRuleInstalled, Deleted(LearningRule))
    }

    function ThreadCalls(): seq<Call>
      reads `tunnelThreadStarted, `udpControlThreadStarted
    {
      When(tunnelThreadStarted, Joined(TunnelThread)) + When(udpControlThreadStarted, Joined(ControlThread))
    }

    function DownCalls(): seq<Call>
      reads this
    {
      When(rawThreadStarted, Joined(RawThread)) + RuleCalls() + ThreadCalls()
    }

    /** The cleanup label: first the threads, then the descriptors they use. */
    method Cleanup(ghost e: Entry)
      requires Ledger(e)
      modifies this, host, router
      ensures host.open == e.open && host.running == map[] && host.rules == e.rules
      ensures host.log == old(host.log) + old(DownCalls())
      ensures router.table.others == e.table.others
      ensures router.table.defaults
           == if route.defaultRouteChanged
              then e.table.defaults[0 := TUN_ROUTE][0 := DefaultRoute(route.gateway, route.ifname, route.src, [])]
              else e.table.defaults
    {
      RestoreAfterRaw(e);
      CloseDescriptors(e);
    }

    /** All but the descriptors: first the thread that reads the TUN, then the routes, the rules
        and the other threads. */
    method RestoreAfterRaw(ghost e: Entry)
      requires Threads() && Rules(e) && Routes(e)
      modifies this`rawThreadStarted, this`tunnelRuleInstalled, this`learningRuleInstalled, host`running, host`rules, host`log, router
      ensures host.running == map[] && host.rules == e.rules && host.log == old(host.log) + old(DownCalls())
      ensures router.table.others == e.table.others
      ensures router.table.defaults
           == if route.defaultRouteChanged
              then e.table.defaults[0 := TUN_ROUTE][0 := DefaultRoute(route.gateway, route.ifname, route.src, [])]
              else e.table.defaults
    {
      ghost var log := host.log;
      ghost var raw, rules, threads := When(rawThreadStarted, Joined(RawThread)), RuleCalls(), ThreadCalls();
      JoinRaw();
      RestoreRoutes(e);
      DeleteRules(e);
      JoinThreads();
      Regroup(log, raw, rules, threads);
    }

    lemma Regroup(log: seq<Call>, a: seq<Call>, b: seq<Call>, c: seq<Call>)
      ensures log + a + b + c == log + (a + b + c)
    {
    }

    method RestoreRoutes(ghost e: Entry)
      requires Routes(e)
      modifies router
      ensures router.table.others == e.table.others
      ensures router.table.defaults
           == if route.defaultRouteChanged
              then e.table.defaults[0 := TUN_ROUTE][0 := DefaultRoute(route.gateway, route.ifname, route.src, [])]
              else e.table.defaults
    {
      route.RestoreDefaultRoute(router);
      route.CleanupRoutes(router);
    }

    method DeleteRules(ghost e: Entry)
      requires Rules(e)
      modifies this`tunnelRuleInstalled, this`learningRuleInstalled, host`rules, host`log
      ensures host.rules == e.rules && host.log == old(host.log) + old(RuleCalls())
    {
      ghost var log := host.log;
      ghost var first, second := When(tunnelRuleInstalled, Deleted(TunnelRule)), When(learningRuleInstalled, Deleted(LearningRule));
      DeleteTunnelRule(e);
      DeleteLearningRule(e);
      assert (log + first) + second == log + (first + second);
    }

    method DeleteTunnelRule(ghost e: Entry)
      requires Rules(e)
      modifies this`tunnelRuleInstalled, host`rules, host`log
      ensures Rules(e) && !tunnelRuleInstalled
      ensures host.log == old(host.log) + When(old(tunnelRuleInstalled), Deleted(TunnelRule))
    {
      if tunnelRuleInstalled {
        host.Delete(TunnelRule);
        tunnelRuleInstalled := false;
      }
    }

    method DeleteLearningRule(ghost e: Entry)
      requires Rules(e) && !tunnelRuleInstalled
      modifies this`learningRuleInstalled, host`rules, host`log
      ensures host.rules == e.rules
      ensures host.log == old(host.log) + When(old(learningRuleInstalled), Deleted(LearningRule))
    {
      if learningRuleInstalled {
        host.Delete(LearningRule);
        learningRuleInstalled := false;
      }
    }

    method JoinRaw()
      requires Threads()
      modifies this`rawThreadStarted, host`running, host`log
      ensures Threads() && !rawThreadStarted && host.log == old(host.log) + When(old(rawThreadStarted), Joined(RawThread))
    {
      if rawThreadStarted {
        host.Join(RawThread);
        rawThreadStarted := false;
      }
    }

    method JoinThreads()
      requires Threads() && !rawThreadStarted
      modifies host`running, host`log
      ensures host.running == map[] && host.log == old(host.log) + ThreadCalls()
    {
      ghost var log := host.log;
      ghost var first, second := When(tunnelThreadStarted, Joined(TunnelThread)), When(udpControlThreadStarted, Joined(ControlThread));
      if tunnelThreadStarted {
        host.Join(TunnelThread);
      }
      assert host.log == log + first;
      if udpControlThreadStarted {
        host.Join(ControlThread);
      }
      assert (log + first) + second == log + (first + second);
      NoThreadLeft(host.running);
    }

    method CloseDescriptors(ghost e: Entry)
      requires Descriptors(e) && host.running == map[]
      modifies this`rawSendFd, this`tunFd, this`proxyFd, this`udpFd, host`open
      ensures host.open == e.open && Held() == {}
    {
      if rawSendFd >= 0 {
        host.Close(rawSendFd);
        rawSendFd := -1;
      }
      if tunFd >= 0 {
        host.Close(tunFd);
        tunFd := -1;
      }
      if proxyFd >= 0 {
        host.Close(proxyFd);
        proxyFd := -1;
      }
      if udpFd >= 0 {
        host.Close(udpFd);
        udpFd := -1;
      }
    }

    /** The way up, as far as the outcomes let it get. */
    method GoUp(o: Outcomes, prefix: string, ghost e: Entry) returns (ok: bool)
      requires Ledger(e) && Idle() && proxyFd == -1 && udpFd == -1 && !udpControlThreadStarted
      modifies this, host, router, route
      ensures Ledger(e)
      ensures ok <==> Connects(o) && Tunnels(o) && Opens(o, e.table.others, prefix)
      ensures route.defaultRouteChanged <==> Connects(o) && Tunnels(o) && Replaces(o, e.table.others, prefix)
      ensures route.defaultRouteChanged ==> route.View() == Scan(o.words.value, NO_SNAPSHOT)
      ensures host.log == old(host.log) + UpCalls(o, e.table.others, prefix)
      ensures DownCalls() == DownCallsAfter(o, e.table.others, prefix)
    {
      ghost var log := host.log;
      ok := Connect(o, e);
      if ok {
        ok := Learn(o, e);
        assert host.log == log + (ConnectCalls(o) + (BaseCalls(o) + TunnelCalls(o)));
        if ok {
          ok := OpenData(o, prefix, e);
        }
      }
      assert host.log == log + UpCalls(o, e.table.others, prefix);
      InUpCalls(o, e.table.others, prefix);
    }

    /** All of `main`. Whatever succeeds or fails outside, when it returns the open
        descriptors, the netfilter rules and the routes other than the default are those at
        entry and no thread runs. The default route is replaced exactly if every step up to
        that one succeeds; it is then back if and only if the route in use had metric 0 and no
        attribute beyond gateway, interface and source. The rules and threads on the way are
        those of `UpCalls`, taken back in the order of `DownCallsAfter`. */
    method Run(o: Outcomes, prefix: string) returns (exitCode: int)
      requires Idle() && proxyFd == -1 && udpFd == -1 && !udpControlThreadStarted
      requires host.running == map[]
      requires Shown(router.table.defaults, o.words) || o.words == None
      modifies this, host, router, route
      ensures host.open == old(host.open) && host.running == map[] && host.rules == old(host.rules)
      ensures router.table.others == old(router.table).others
      ensures route.defaultRouteChanged <==> Connects(o) && Tunnels(o) && Replaces(o, old(router.table).others, prefix)
      ensures var defaults := old(router.table).defaults;
        router.table.defaults == defaults <==> (!route.defaultRouteChanged || (0 in defaults && defaults[0].extra == []))
      ensures var others := old(router.table).others;
        host.log == old(host.log) + UpCalls(o, others, prefix) + DownCallsAfter(o, others, prefix)
      ensures exitCode == 0 <==> Connects(o) && Tunnels(o) && Opens(o, old(router.table).others, prefix)
    {
      ghost var e := Entry(host.open, host.rules, router.table);
      var ok := GoUp(o, prefix, e);
      exitCode := if ok then 0 else 1;
      if route.defaultRouteChanged {
        DetourTakenBackIffPlain(e.table.defaults, o.words.value);
      }
      Cleanup(e);
    }
  }
}
