/** The client's changes to the routing table, and how it takes them back.

    Two facts about `ip route` are used: `replace default` without a metric sets the default
    route of metric 0 and leaves those of other metrics, and `show default` lists the
    default route of the lowest metric first. */
module Routes {
  import opened Bytes

  /** `extra`: the attributes the client does not know, such as `proto` and `metric`. */
  datatype DefaultRoute = DefaultRoute(gateway: string, ifname: string, src: string, extra: seq<string>)

  datatype NextHop = NextHop(gateway: string, ifname: string)

  /** Default routes by metric, other routes by prefix. */
  datatype RouteTable = RouteTable(defaults: map<nat, DefaultRoute>, others: map<string, NextHop>)

  const TUN_ROUTE := DefaultRoute("", "tunC", "", [])

  // ---------- Reading the default route ----------

  datatype Snapshot = Snapshot(gateway: string, ifname: string, src: string)

  const NO_SNAPSHOT := Snapshot("", "", "")

  function Attribute(key: string, value: string): seq<string> {
    if value == "" then [] else [key, value]
  }

  /** The words of a default route as `ip route show default` prints it. */
  function Words(r: DefaultRoute): seq<string> {
    ["default"] + (Attribute("via", r.gateway) + (["dev", r.ifname] + (Attribute("src", r.src) + r.extra)))
  }

  predicate NoKeyword(words: seq<string>) {
    forall w | w in words :: w != "via" && w != "dev" && w != "src"
  }

  /** The loop over the words of the line: a keyword takes the next word, if any. */
  function Scan(words: seq<string>, s: Snapshot): Snapshot {
    if words == [] then s
    else if words[0] == "via" && |words| > 1 then Scan(words[2..], s.(gateway := words[1]))
    else if words[0] == "dev" && |words| > 1 then Scan(words[2..], s.(ifname := words[1]))
    else if words[0] == "src" && |words| > 1 then Scan(words[2..], s.(src := words[1]))
    else Scan(words[1..], s)
  }

  lemma {:induction false} ScanNoKeyword(words: seq<string>, s: Snapshot)
    requires NoKeyword(words)
    ensures Scan(words, s) == s
  {
    if words != [] {
      assert words[0] in words && forall w | w in words[1..] :: w in words;
      ScanNoKeyword(words[1..], s);
    }
  }

  /** A keyword with its value sets that field; a field not printed stays empty. */
  lemma ScanPair(key: string, value: string, rest: seq<string>, s: Snapshot)
    ensures key == "via" ==> Scan([key, value] + rest, s) == Scan(rest, s.(gateway := value))
    ensures key == "dev" ==> Scan([key, value] + rest, s) == Scan(rest, s.(ifname := value))
    ensures key == "src" ==> Scan([key, value] + rest, s) == Scan(rest, s.(src := value))
  {
    assert ([key, value] + rest)[2..] == rest;
  }

  lemma ScanAttribute(key: string, value: string, rest: seq<string>, s: Snapshot)
    ensures key == "via" && s.gateway == "" ==> Scan(Attribute(key, value) + rest, s) == Scan(rest, s.(gateway := value))
    ensures key == "src" && s.src == "" ==> Scan(Attribute(key, value) + rest, s) == Scan(rest, s.(src := value))
  {
    if value == "" {
      assert Attribute(key, value) + rest == rest;
    } else {
      ScanPair(key, value, rest, s);
    }
  }

  /** Of a printed default route, exactly the three fields are read back, whatever its other
      attributes. */
  lemma ScanWords(r: DefaultRoute)
    requires NoKeyword(r.extra)
    ensures Scan(Words(r), NO_SNAPSHOT) == Snapshot(r.gateway, r.ifname, r.src)
  {
    var afterDev := Attribute("src", r.src) + r.extra;
    var afterVia := ["dev", r.ifname] + afterDev;
    var s := Snapshot(r.gateway, "", "");
    assert Words(r)[1..] == Attribute("via", r.gateway) + afterVia;
    ScanAttribute("via", r.gateway, afterVia, NO_SNAPSHOT);
    ScanPair("dev", r.ifname, afterDev, s);
    ScanAttribute("src", r.src, r.extra, s.(ifname := r.ifname));
    ScanNoKeyword(r.extra, Snapshot(r.gateway, r.ifname, r.src));
  }

  /** The line `ip route show default` prints first, if there is one. */
  ghost predicate Shown(defaults: map<nat, DefaultRoute>, line: Option<seq<string>>) {
    match line
    case None => defaults == map[]
    case Some(words) => exists m: nat | m in defaults :: (forall k: nat | k in defaults :: m <= k) && words == Words(defaults[m])
  }

  // ---------- Adding and deleting routes ----------

  /** `ip route del` for each prefix in the list, via the given hop. */
  function Deleted(t: map<string, NextHop>, prefixes: seq<string>, hop: NextHop): map<string, NextHop> {
    if prefixes == [] then t
    else Deleted(if prefixes[0] in t && t[prefixes[0]] == hop then t - {prefixes[0]} else t, prefixes[1..], hop)
  }

  /** Deleting a prefix that is not there does nothing, last as well as first. */
  lemma {:induction false} DeletedAbsent(t: map<string, NextHop>, prefixes: seq<string>, prefix: string, hop: NextHop)
    requires prefix !in t
    ensures Deleted(t, prefixes + [prefix], hop) == Deleted(t, prefixes, hop)
  {
    if prefixes != [] {
      var t' := if prefixes[0] in t && t[prefixes[0]] == hop then t - {prefixes[0]} else t;
      assert (prefixes + [prefix])[1..] == prefixes[1..] + [prefix];
      DeletedAbsent(t', prefixes[1..], prefix, hop);
    }
  }

  /** A route added to the table and to the list is taken back with the rest of the list,
      whatever is on it already, repetitions included. */
  lemma {:induction false} AddThenDelete(t: map<string, NextHop>, prefixes: seq<string>, prefix: string, hop: NextHop)
    requires prefix !in t
    ensures Deleted(t[prefix := hop], prefixes + [prefix], hop) == Deleted(t, prefixes, hop)
  {
    if prefixes == [] {
      assert t[prefix := hop] - {prefix} == t;
    } else {
      assert (prefixes + [prefix])[1..] == prefixes[1..] + [prefix];
      var first := prefixes[0];
      if first == prefix {
        assert t[prefix := hop] - {prefix} == t;
        DeletedAbsent(t, prefixes[1..], prefix, hop);
      } else {
        var t' := if first in t && t[first] == hop then t - {first} else t;
        assert t[prefix := hop] - {first} == (t - {first})[prefix := hop];
        AddThenDelete(t', prefixes[1..], prefix, hop);
      }
    }
  }

  // ---------- RouteSnapshot ----------

  /** The kernel's table, changed by commands. */
  class Router {
    var table: RouteTable
  }

  class RouteSnapshot {
    var gateway: string
    var ifname: string
    var src: string
    var addedRoutes: seq<string>
    var defaultRouteChanged: bool

    constructor ()
      ensures View() == NO_SNAPSHOT && addedRoutes == [] && !defaultRouteChanged
    {
      gateway, ifname, src, addedRoutes, defaultRouteChanged := "", "", "", [], false;
    }

    function View(): Snapshot
      reads this
    {
      Snapshot(gateway, ifname, src)
    }

    function Hop(): NextHop
      reads this
    {
      NextHop(gateway, ifname)
    }

    /** The table once the snapshot's changes are taken back. */
    function TakenBack(table: RouteTable): RouteTable
      reads this
    {
      RouteTable(if defaultRouteChanged then table.defaults[0 := DefaultRoute(gateway, ifname, src, [])] else table.defaults,
                 Deleted(table.others, addedRoutes, Hop()))
    }

    /** `load_default_route`; `line` holds the words printed, if any. */
    method LoadDefaultRoute(line: Option<seq<string>>) returns (ok: bool)
      modifies this`gateway, this`ifname, this`src
      ensures View() == if line.None? then old(View()) else Scan(line.value, old(View()))
      ensures ok <==> line.Some? && gateway != "" && ifname != ""
    {
      if line.None? {
        return false;
      }
      var words := line.value;
      var i := 0;
      while i < |words|
        invariant 0 <= i <= |words|
        invariant Scan(words[i..], View()) == Scan(words, old(View()))
      {
        assert i + 1 < |words| ==> words[i..][2..] == words[i + 2..] && words[i..][1] == words[i + 1];
        assert words[i..][1..] == words[i + 1..];
        var word := words[i];
        i := i + 1;
        if i < |words| {
          if word == "via" {
            gateway := words[i];
            i := i + 1;
          } else if word == "dev" {
            ifname := words[i];
            i := i + 1;
          } else if word == "src" {
            src := words[i];
            i := i + 1;
          }
        }
      }
      ok := gateway != "" && ifname != "";
    }

    /** `add_route`: what it adds, the cleanup would take back. */
    method AddRoute(router: Router, prefix: string, commandOk: bool) returns (ok: bool)
      modifies this`addedRoutes, router
      ensures ok <==> commandOk && prefix !in old(router.table).others
      ensures ok ==> router.table == old(router.table).(others := old(router.table).others[prefix := Hop()])
      ensures !ok ==> router.table == old(router.table)
      ensures addedRoutes == if ok then old(addedRoutes) + [prefix] else old(addedRoutes)
      ensures TakenBack(router.table) == old(TakenBack(router.table))
    {
      ok := commandOk && prefix !in router.table.others;
      if ok {
        AddThenDelete(router.table.others, addedRoutes, prefix, Hop());
        router.table := router.table.(others := router.table.others[prefix := Hop()]);
        addedRoutes := addedRoutes + [prefix];
      }
    }

    /** `replace_default_route_to_tun`. */
    method ReplaceDefaultRouteToTun(router: Router, commandOk: bool) returns (ok: bool)
      modifies this`defaultRouteChanged, router
      ensures ok == commandOk
      ensures router.table == if ok then old(router.table).(defaults := old(router.table).defaults[0 := TUN_ROUTE]) else old(router.table)
      ensures defaultRouteChanged == (ok || old(defaultRouteChanged))
    {
      ok := commandOk;
      if ok {
        router.table := router.table.(defaults := router.table.defaults[0 := TUN_ROUTE]);
        defaultRouteChanged := true;
      }
    }

    /** `restore_default_route`; its command is taken to succeed. */
    method RestoreDefaultRoute(router: Router)
      modifies router
      ensures router.table == old(router.table).(defaults := old(TakenBack(router.table)).defaults)
    {
      if !defaultRouteChanged {
        return;
      }
      router.table := router.table.(defaults := router.table.defaults[0 := DefaultRoute(gateway, ifname, src, [])]);
    }

    /** `cleanup_routes`; its commands are taken to succeed. */
    method CleanupRoutes(router: Router)
      modifies router
      ensures router.table == old(router.table).(others := old(TakenBack(router.table)).others)
    {
      var i := 0;
      while i < |addedRoutes|
        invariant 0 <= i <= |addedRoutes|
        invariant router.table.defaults == old(router.table).defaults
        invariant Deleted(router.table.others, addedRoutes[i..], Hop()) == Deleted(old(router.table).others, addedRoutes, Hop())
      {
        var prefix := addedRoutes[i];
        assert addedRoutes[i..][1..] == addedRoutes[i + 1..];
        i := i + 1;
        if prefix in router.table.others && router.table.others[prefix] == Hop() {
          router.table := router.table.(others := router.table.others - {prefix});
        }
      }
    }
  }

  /** The default routes once they were replaced by the TUN and restored from what was read. */
  function Detour(defaults: map<nat, DefaultRoute>, words: seq<string>): map<nat, DefaultRoute> {
    var s := Scan(words, NO_SNAPSHOT);
    defaults[0 := TUN_ROUTE][0 := DefaultRoute(s.gateway, s.ifname, s.src, [])]
  }

  /** After the detour through the TUN the default routes are the old ones if and only if the
      one in use had metric 0 and no attribute beyond gateway, interface and source. */
  lemma DetourTakenBackIffPlain(defaults: map<nat, DefaultRoute>, words: seq<string>)
    requires Shown(defaults, Some(words))
    ensures Detour(defaults, words) == defaults <==> 0 in defaults && defaults[0].extra == []
  {
    var m: nat :| m in defaults && (forall k: nat | k in defaults :: m <= k) && words == Words(defaults[m]);
    var s := Scan(words, NO_SNAPSHOT);
    assert Detour(defaults, words)[0] == DefaultRoute(s.gateway, s.ifname, s.src, []);
    if 0 in defaults {
      assert m == 0;
      if defaults[0].extra == [] {
        ScanWords(defaults[0]);
      }
    }
  }

  /** A default route as a DHCP client sets it, with a metric: afterwards there are two. */
  lemma MetricNotTakenBack(gateway: string, ifname: string, src: string)
    ensures var r := DefaultRoute(gateway, ifname, src, ["metric", "100"]);
      && Shown(map[100 := r], Some(Words(r)))
      && Detour(map[100 := r], Words(r)) == map[0 := DefaultRoute(gateway, ifname, src, []), 100 := r]
  {
    var r := DefaultRoute(gateway, ifname, src, ["metric", "100"]);
    assert 100 in map[100 := r];
    ScanWords(r);
  }

  /** One with an attribute the client does not know: it is lost. */
  lemma AttributeNotTakenBack(gateway: string, ifname: string, src: string)
    ensures var r := DefaultRoute(gateway, ifname, src, ["proto", "static"]);
      && Shown(map[0 := r], Some(Words(r)))
      && Detour(map[0 := r], Words(r)) == map[0 := DefaultRoute(gateway, ifname, src, [])]
  {
    var r := DefaultRoute(gateway, ifname, src, ["proto", "static"]);
    assert 0 in map[0 := r];
    ScanWords(r);
  }
}
