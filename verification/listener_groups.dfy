/** Grouping: one server per listening address, holding the handlers of all proxies on it. */
module ListenerGroups {
  import opened Config
  import opened Filters

  datatype HttpProxy = HttpProxy(listenOn: Listener, handlers: map<string, Target>)

  function TargetOf(p: ProxyEntry): Target {
    Target(p.connectTo, p.labelFilters, p.cacheDuration)
  }

  /** The target connects, filters and caches as the proxy asks. */
  ghost predicate Keeps(t: Target, p: ProxyEntry) {
    t.connectTo == p.connectTo && t.labelFilters == p.labelFilters && t.cacheDuration == p.cacheDuration
  }

  /** `i` is the first proxy with this address and handler. */
  predicate FirstAt(ps: seq<ProxyEntry>, i: nat, addr: string, handler: string) {
    && i < |ps| && ps[i].listenOn.sockaddr == addr && ps[i].listenOn.handler == handler
    && forall j | 0 <= j < i :: ps[j].listenOn.sockaddr != addr || ps[j].listenOn.handler != handler
  }

  /** The server of an address listens as the first proxy there and sends each handler to the first proxy with it. */
  ghost predicate ServerOk(ps: seq<ProxyEntry>, addr: string, server: HttpProxy) {
    && (exists i: nat :: FirstOn(ps, i, addr) && server.listenOn == ps[i].listenOn)
    && (forall h | h in server.handlers :: exists i: nat ::
         FirstAt(ps, i, addr, h) && Keeps(server.handlers[h], ps[i]))
  }

  ghost predicate ServersOk(ps: seq<ProxyEntry>, servers: map<string, HttpProxy>) {
    forall addr | addr in servers :: ServerOk(ps, addr, servers[addr])
  }

  predicate Placed(l: Listener, servers: map<string, HttpProxy>) {
    l.sockaddr in servers && l.handler in servers[l.sockaddr].handlers
  }

  predicate AllPlaced(ps: seq<ProxyEntry>, servers: map<string, HttpProxy>) {
    forall i | 0 <= i < |ps| :: Placed(ps[i].listenOn, servers)
  }

  ghost predicate GroupedAs(ps: seq<ProxyEntry>, servers: map<string, HttpProxy>) {
    ServersOk(ps, servers) && AllPlaced(ps, servers)
  }

  /** The servers of the map in a list, in any order. */
  ghost predicate Lists(servers: map<string, HttpProxy>, list: seq<HttpProxy>) {
    && (forall k | 0 <= k < |list| ::
          list[k].listenOn.sockaddr in servers && servers[list[k].listenOn.sockaddr] == list[k])
    && (forall j, k | 0 <= j < k < |list| :: list[j].listenOn.sockaddr != list[k].listenOn.sockaddr)
    && (forall addr | addr in servers :: servers[addr] in list)
  }

  /** The list is what grouping the proxies by address gives. */
  ghost predicate Grouping(ps: seq<ProxyEntry>, list: seq<HttpProxy>) {
    exists servers :: GroupedAs(ps, servers) && Lists(servers, list)
  }

  method Group(cfg: Config) returns (list: seq<HttpProxy>)
    ensures Grouping(cfg.proxies, list)
  {
    var grouped: map<string, HttpProxy> := map[];
    for i := 0 to |cfg.proxies|
      invariant GroupedAs(cfg.proxies[..i], grouped)
    {
      var proxy := cfg.proxies[i];
      var listenOn := proxy.listenOn;
      var serveraddr := listenOn.sockaddr;
      var target := Target(proxy.connectTo, proxy.labelFilters, proxy.cacheDuration);
      assert cfg.proxies[..i + 1] == cfg.proxies[..i] + [proxy];
      if serveraddr !in grouped {
        NewServer(cfg.proxies[..i], proxy, grouped);
        grouped := grouped[serveraddr := HttpProxy(listenOn, map[listenOn.handler := target])];
      } else {
        var oldserver := grouped[serveraddr];
        if listenOn.handler !in oldserver.handlers {
          NewHandler(cfg.proxies[..i], proxy, grouped);
          var handlers := oldserver.handlers[listenOn.handler := target];
          grouped := grouped[serveraddr := HttpProxy(oldserver.listenOn, handlers)];
        } else {
          SkippedProxy(cfg.proxies[..i], proxy, grouped);
        }
      }
    }
    assert cfg.proxies[..|cfg.proxies|] == cfg.proxies;
    list := Values(cfg.proxies, grouped);
  }

  /** The values of the hash map, in whatever order it yields them. */
  method Values(ghost ps: seq<ProxyEntry>, servers: map<string, HttpProxy>) returns (list: seq<HttpProxy>)
    requires forall addr | addr in servers :: ServerOk(ps, addr, servers[addr])
    ensures Lists(servers, list)
  {
    list := [];
    var left := servers.Keys;
    while left != {}
      invariant left <= servers.Keys
      invariant forall k | 0 <= k < |list| ::
        list[k].listenOn.sockaddr in servers && list[k].listenOn.sockaddr !in left
          && servers[list[k].listenOn.sockaddr] == list[k]
      invariant forall j, k | 0 <= j < k < |list| :: list[j].listenOn.sockaddr != list[k].listenOn.sockaddr
      invariant forall addr | addr in servers && addr !in left :: servers[addr] in list
      decreases left
    {
      var addr :| addr in left;
      assert ServerOk(ps, addr, servers[addr]);
      left := left - {addr};
      list := list + [servers[addr]];
    }
  }

  lemma {:induction false} FirstStays(ps: seq<ProxyEntry>, p: ProxyEntry, i: nat, addr: string, h: string)
    ensures FirstOn(ps, i, addr) ==> FirstOn(ps + [p], i, addr)
    ensures FirstAt(ps, i, addr, h) ==> FirstAt(ps + [p], i, addr, h)
  {
  }

  lemma {:induction false} ServerStays(ps: seq<ProxyEntry>, p: ProxyEntry, addr: string, server: HttpProxy)
    requires ServerOk(ps, addr, server)
    ensures ServerOk(ps + [p], addr, server)
  {
    var i: nat :| FirstOn(ps, i, addr) && server.listenOn == ps[i].listenOn;
    FirstStays(ps, p, i, addr, "");
    forall h | h in server.handlers
      ensures exists j: nat :: FirstAt(ps + [p], j, addr, h) && Keeps(server.handlers[h], (ps + [p])[j])
    {
      var j: nat :| FirstAt(ps, j, addr, h) && Keeps(server.handlers[h], ps[j]);
      FirstStays(ps, p, j, addr, h);
    }
  }

  lemma {:induction false} ServersMore(
    ps: seq<ProxyEntry>, p: ProxyEntry, servers: map<string, HttpProxy>, a: string, server: HttpProxy)
    requires ServersOk(ps, servers) && ServerOk(ps + [p], a, server)
    ensures ServersOk(ps + [p], servers[a := server])
  {
    forall addr | addr in servers && addr != a ensures ServerOk(ps + [p], addr, servers[addr]) {
      ServerStays(ps, p, addr, servers[addr]);
    }
  }

  lemma {:induction false} PlacedMore(
    ps: seq<ProxyEntry>, p: ProxyEntry, servers: map<string, HttpProxy>, server: HttpProxy)
    requires AllPlaced(ps, servers) && p.listenOn.handler in server.handlers
    requires p.listenOn.sockaddr in servers ==> forall h | h in servers[p.listenOn.sockaddr].handlers ::
      h in server.handlers
    ensures AllPlaced(ps + [p], servers[p.listenOn.sockaddr := server])
  {
  }

  lemma {:induction false} NewServer(ps: seq<ProxyEntry>, p: ProxyEntry, servers: map<string, HttpProxy>)
    requires GroupedAs(ps, servers) && p.listenOn.sockaddr !in servers
    ensures
      var server := HttpProxy(p.listenOn, map[p.listenOn.handler := TargetOf(p)]);
      GroupedAs(ps + [p], servers[p.listenOn.sockaddr := server])
  {
    var a, n := p.listenOn.sockaddr, |ps|;
    assert forall i | 0 <= i < n :: Placed(ps[i].listenOn, servers);
    assert FirstOn(ps + [p], n, a);
    assert FirstAt(ps + [p], n, a, p.listenOn.handler);
    assert (ps + [p])[n] == p;
    var server := HttpProxy(p.listenOn, map[p.listenOn.handler := TargetOf(p)]);
    ServersMore(ps, p, servers, a, server);
    PlacedMore(ps, p, servers, server);
  }

  lemma {:induction false} FirstWithHandler(ps: seq<ProxyEntry>, p: ProxyEntry, servers: map<string, HttpProxy>)
    requires GroupedAs(ps, servers) && p.listenOn.sockaddr in servers
    requires p.listenOn.handler !in servers[p.listenOn.sockaddr].handlers
    ensures FirstAt(ps + [p], |ps|, p.listenOn.sockaddr, p.listenOn.handler)
  {
  }

  lemma {:induction false} NewHandler(ps: seq<ProxyEntry>, p: ProxyEntry, servers: map<string, HttpProxy>)
    requires GroupedAs(ps, servers) && p.listenOn.sockaddr in servers
    requires p.listenOn.handler !in servers[p.listenOn.sockaddr].handlers
    ensures
      var before := servers[p.listenOn.sockaddr];
      var server := HttpProxy(before.listenOn, before.handlers[p.listenOn.handler := TargetOf(p)]);
      GroupedAs(ps + [p], servers[p.listenOn.sockaddr := server])
  {
    var a := p.listenOn.sockaddr;
    var before := servers[a];
    FirstWithHandler(ps, p, servers);
    ServerStays(ps, p, a, before);
    ServerGains(ps + [p], a, before, p.listenOn.handler, |ps|);
    var server := HttpProxy(before.listenOn, before.handlers[p.listenOn.handler := TargetOf(p)]);
    ServersMore(ps, p, servers, a, server);
    PlacedMore(ps, p, servers, server);
  }

  lemma {:induction false} ServerGains(ps: seq<ProxyEntry>, a: string, server: HttpProxy, h: string, n: nat)
    requires ServerOk(ps, a, server) && FirstAt(ps, n, a, h)
    ensures ServerOk(ps, a, HttpProxy(server.listenOn, server.handlers[h := TargetOf(ps[n])]))
  {
  }

  lemma {:induction false} SkippedProxy(ps: seq<ProxyEntry>, p: ProxyEntry, servers: map<string, HttpProxy>)
    requires GroupedAs(ps, servers) && p.listenOn.sockaddr in servers
    requires p.listenOn.handler in servers[p.listenOn.sockaddr].handlers
    ensures GroupedAs(ps + [p], servers)
  {
    var a := p.listenOn.sockaddr;
    ServerStays(ps, p, a, servers[a]);
    assert servers[a := servers[a]] == servers;
    ServersMore(ps, p, servers, a, servers[a]);
    PlacedMore(ps, p, servers, servers[a]);
  }

  // ---------- what grouping means for an accepted configuration ----------

  lemma {:induction false} HandlerTaken(ps: seq<ProxyEntry>, servers: map<string, HttpProxy>, a: string, h: string)
    requires GroupedAs(ps, servers)
    ensures a in servers && h in servers[a].handlers ==>
      exists j | 0 <= j < |ps| :: ps[j].listenOn.sockaddr == a && ps[j].listenOn.handler == h
  {
    if a in servers && h in servers[a].handlers {
      assert ServerOk(ps, a, servers[a]);
      var j: nat :| FirstAt(ps, j, a, h) && Keeps(servers[a].handlers[h], ps[j]);
    }
  }

  /** The branch that drops a proxy silently is never taken while the proxies are conflict-free. */
  lemma {:induction false} NothingSkipped(ps: seq<ProxyEntry>, i: nat, servers: map<string, HttpProxy>)
    requires ConflictFree(ps) && i < |ps| && GroupedAs(ps[..i], servers)
    ensures ps[i].listenOn.sockaddr in servers ==> ps[i].listenOn.handler !in servers[ps[i].listenOn.sockaddr].handlers
  {
    var a, h := ps[i].listenOn.sockaddr, ps[i].listenOn.handler;
    HandlerTaken(ps[..i], servers, a, h);
    assert forall j | 0 <= j < i :: ps[..i][j] == ps[j] && Compatible(ps[j].listenOn, ps[i].listenOn);
  }

  ghost predicate ServedBy(p: ProxyEntry, server: HttpProxy) {
    && server.listenOn.sockaddr == p.listenOn.sockaddr
    && p.listenOn.handler in server.handlers
    && Keeps(server.handlers[p.listenOn.handler], p)
    && server.listenOn.protocol == p.listenOn.protocol
  }

  ghost predicate Served(p: ProxyEntry, list: seq<HttpProxy>) {
    exists k | 0 <= k < |list| :: ServedBy(p, list[k])
  }

  /** The handler of the server is that of some proxy. */
  ghost predicate Wanted(ps: seq<ProxyEntry>, server: HttpProxy, handler: string) {
    exists i | 0 <= i < |ps| :: ps[i].listenOn.handler == handler && ServedBy(ps[i], server)
  }

  /**
   Lossless: for conflict-free proxies, each one's target sits under exactly its address and
   handler, at one server, which speaks its protocol; and nothing else sits anywhere.
   */
  lemma {:induction false} GroupingIsLossless(ps: seq<ProxyEntry>, list: seq<HttpProxy>)
    requires ConflictFree(ps) && Grouping(ps, list)
    ensures forall i | 0 <= i < |ps| :: Served(ps[i], list)
    ensures forall j, k | 0 <= j < k < |list| :: list[j].listenOn.sockaddr != list[k].listenOn.sockaddr
    ensures forall k, h | 0 <= k < |list| && h in list[k].handlers :: Wanted(ps, list[k], h)
  {
    var servers :| GroupedAs(ps, servers) && Lists(servers, list);
    forall i | 0 <= i < |ps| ensures Served(ps[i], list) {
      var k := ServedSomewhere(ps, servers, list, i);
    }
    forall k, h | 0 <= k < |list| && h in list[k].handlers
      ensures Wanted(ps, list[k], h)
    {
      var i := EntryIsOwn(ps, list[k].listenOn.sockaddr, list[k], h);
    }
  }

  /** All that a proxy asks for at its address and handler. */
  datatype Offer = Offer(
    address: string,
    handler: string,
    connectTo: ConnectTo,
    labelFilters: seq<Selector>,
    cacheDuration: nat)

  ghost function Asked(ps: seq<ProxyEntry>): set<Offer> {
    set i | 0 <= i < |ps| ::
      Offer(ps[i].listenOn.sockaddr, ps[i].listenOn.handler, ps[i].connectTo, ps[i].labelFilters, ps[i].cacheDuration)
  }

  ghost function Offered(list: seq<HttpProxy>): set<Offer> {
    set k, h | 0 <= k < |list| && h in list[k].handlers ::
      Offer(list[k].listenOn.sockaddr, h, list[k].handlers[h].connectTo, list[k].handlers[h].labelFilters,
            list[k].handlers[h].cacheDuration)
  }

  /** What the proxies ask for can be read back from the servers, address by address and handler by handler. */
  lemma {:induction false} OffersReadBack(ps: seq<ProxyEntry>, list: seq<HttpProxy>)
    requires ConflictFree(ps) && Grouping(ps, list)
    ensures Offered(list) == Asked(ps)
  {
    hide Grouping, ConflictFree;
    GroupingIsLossless(ps, list);
    forall o | o in Asked(ps) ensures o in Offered(list) {
      var i :| 0 <= i < |ps| && o == Offer(
        ps[i].listenOn.sockaddr, ps[i].listenOn.handler, ps[i].connectTo, ps[i].labelFilters, ps[i].cacheDuration);
      assert Served(ps[i], list);
    }
    forall o | o in Offered(list) ensures o in Asked(ps) {
      var k, h :|
        && 0 <= k < |list| && h in list[k].handlers
        && o.address == list[k].listenOn.sockaddr && o.handler == h
        && o.connectTo == list[k].handlers[h].connectTo
        && o.labelFilters == list[k].handlers[h].labelFilters
        && o.cacheDuration == list[k].handlers[h].cacheDuration;
      assert Wanted(ps, list[k], h);
    }
  }

  lemma {:induction false} ServedSomewhere(
    ps: seq<ProxyEntry>, servers: map<string, HttpProxy>, list: seq<HttpProxy>, i: nat)
    returns (k: nat)
    requires ConflictFree(ps) && GroupedAs(ps, servers) && Lists(servers, list) && i < |ps|
    ensures k < |list| && ServedBy(ps[i], list[k])
  {
    var a, h := ps[i].listenOn.sockaddr, ps[i].listenOn.handler;
    assert Placed(ps[i].listenOn, servers);
    assert servers[a] in list;
    k :| 0 <= k < |list| && list[k] == servers[a];
    var j := EntryIsOwn(ps, a, servers[a], h);
    SameProxy(ps, i, j);
  }

  lemma {:induction false} EntryIsOwn(ps: seq<ProxyEntry>, a: string, server: HttpProxy, h: string) returns (j: nat)
    requires ConflictFree(ps) && ServerOk(ps, a, server) && h in server.handlers
    ensures j < |ps| && ps[j].listenOn.sockaddr == a && ps[j].listenOn.handler == h && ServedBy(ps[j], server)
  {
    var f: nat :| FirstOn(ps, f, a) && server.listenOn == ps[f].listenOn;
    j :| FirstAt(ps, j, a, h) && Keeps(server.handlers[h], ps[j]);
    assert f < j ==> Compatible(ps[f].listenOn, ps[j].listenOn);
    assert f <= j;
  }

  lemma {:induction false} SameProxy(ps: seq<ProxyEntry>, i: nat, j: nat)
    requires ConflictFree(ps) && i < |ps| && j < |ps|
    requires ps[i].listenOn.sockaddr == ps[j].listenOn.sockaddr && ps[i].listenOn.handler == ps[j].listenOn.handler
    ensures i == j
  {
  }

  // ---------- counting ----------

  function HandlerCount(list: seq<HttpProxy>): nat {
    if list == [] then 0 else |list[0].handlers| + HandlerCount(list[1..])
  }

  function Places(list: seq<HttpProxy>): set<(string, string)> {
    set k, h | 0 <= k < |list| && h in list[k].handlers :: (list[k].listenOn.sockaddr, h)
  }

  lemma {:induction false} PairsSize(a: string, hs: set<string>)
    ensures |set h | h in hs :: (a, h)| == |hs|
    decreases hs
  {
    if hs != {} {
      var h :| h in hs;
      PairsSize(a, hs - {h});
      assert (set x | x in hs :: (a, x)) == (set x | x in hs - {h} :: (a, x)) + {(a, h)};
    }
  }

  lemma {:induction false} CountPlaces(list: seq<HttpProxy>)
    requires forall j, k | 0 <= j < k < |list| :: list[j].listenOn.sockaddr != list[k].listenOn.sockaddr
    ensures HandlerCount(list) == |Places(list)|
    decreases |list|
  {
    if list != [] {
      var rest := list[1..];
      CountPlaces(rest);
      var a := list[0].listenOn.sockaddr;
      var own := set h | h in list[0].handlers.Keys :: (a, h);
      PairsSize(a, list[0].handlers.Keys);
      assert |list[0].handlers.Keys| == |list[0].handlers|;
      forall x | x in Places(list) ensures x in own || x in Places(rest) {
        var k, h :| 0 <= k < |list| && h in list[k].handlers && x == (list[k].listenOn.sockaddr, h);
        if k > 0 { assert rest[k - 1] == list[k]; }
      }
      forall x | x in Places(rest) ensures x in Places(list) && x !in own {
        var k, h :| 0 <= k < |rest| && h in rest[k].handlers && x == (rest[k].listenOn.sockaddr, h);
        assert list[k + 1] == rest[k];
      }
      assert Places(list) == own + Places(rest);
    }
  }

  function ProxyPlaces(ps: seq<ProxyEntry>): set<(string, string)> {
    set i | 0 <= i < |ps| :: (ps[i].listenOn.sockaddr, ps[i].listenOn.handler)
  }

  lemma {:induction false} CountProxies(ps: seq<ProxyEntry>)
    requires ConflictFree(ps)
    ensures |ProxyPlaces(ps)| == |ps|
    decreases |ps|
  {
    if ps != [] {
      var n := |ps| - 1;
      var front := ps[..n];
      assert ConflictFree(front);
      CountProxies(front);
      var last := (ps[n].listenOn.sockaddr, ps[n].listenOn.handler);
      forall i | 0 <= i < n ensures last != (front[i].listenOn.sockaddr, front[i].listenOn.handler) {
        assert front[i] == ps[i];
        assert Compatible(ps[i].listenOn, ps[n].listenOn);
      }
      assert ProxyPlaces(ps) == ProxyPlaces(front) + {last};
    }
  }

  lemma {:induction false} SamePlaces(ps: seq<ProxyEntry>, servers: map<string, HttpProxy>, list: seq<HttpProxy>)
    requires ConflictFree(ps) && GroupedAs(ps, servers) && Lists(servers, list)
    ensures Places(list) == ProxyPlaces(ps)
  {
    forall x | x in Places(list) ensures x in ProxyPlaces(ps) {
      var k, h :| 0 <= k < |list| && h in list[k].handlers && x == (list[k].listenOn.sockaddr, h);
      var i := EntryIsOwn(ps, x.0, list[k], h);
    }
    forall x | x in ProxyPlaces(ps) ensures x in Places(list) {
      var i: nat :| i < |ps| && x == (ps[i].listenOn.sockaddr, ps[i].listenOn.handler);
      var k := ServedSomewhere(ps, servers, list, i);
    }
  }

  /** No handler is lost or invented: the servers have as many handlers as there are proxies. */
  lemma {:induction false} CountsAgree(ps: seq<ProxyEntry>, list: seq<HttpProxy>)
    requires ConflictFree(ps) && Grouping(ps, list)
    ensures HandlerCount(list) == |ps|
  {
    var servers :| GroupedAs(ps, servers) && Lists(servers, list);
    SamePlaces(ps, servers, list);
    CountPlaces(list);
    CountProxies(ps);
  }

  // ---------- what the grouping does lose ----------

  predicate TimeoutsAgree(ps: seq<ProxyEntry>) {
    forall i, j | 0 <= i < j < |ps| && ps[i].listenOn.sockaddr == ps[j].listenOn.sockaddr ::
      SameTimeouts(ps[i].listenOn, ps[j].listenOn)
  }

  predicate SameTimeouts(a: Listener, b: Listener) {
    a.headerReadTimeout == b.headerReadTimeout && a.requestResponseTimeout == b.requestResponseTimeout
  }

  /** The server on its address has the timeouts the proxy asks for. */
  predicate TimeoutsHonoured(ps: seq<ProxyEntry>, list: seq<HttpProxy>) {
    forall i, k | 0 <= i < |ps| && 0 <= k < |list| && list[k].listenOn.sockaddr == ps[i].listenOn.sockaddr ::
      SameTimeouts(list[k].listenOn, ps[i].listenOn)
  }

  /** A server takes its timeouts from the first proxy: every proxy gets its own exactly when they agree. */
  lemma {:induction false} TimeoutsExactly(ps: seq<ProxyEntry>, list: seq<HttpProxy>)
    requires Grouping(ps, list)
    ensures TimeoutsHonoured(ps, list) <==> TimeoutsAgree(ps)
  {
    var servers :| GroupedAs(ps, servers) && Lists(servers, list);
    if TimeoutsAgree(ps) {
      forall i, k | 0 <= i < |ps| && 0 <= k < |list| && list[k].listenOn.sockaddr == ps[i].listenOn.sockaddr
        ensures SameTimeouts(list[k].listenOn, ps[i].listenOn)
      {
        AgreedTimeoutsHonoured(ps, servers, i);
      }
    }
    if TimeoutsHonoured(ps, list) {
      forall i, j | 0 <= i < j < |ps| && ps[i].listenOn.sockaddr == ps[j].listenOn.sockaddr
        ensures SameTimeouts(ps[i].listenOn, ps[j].listenOn)
      {
        OneServer(ps, servers, list, i);
      }
    }
  }

  lemma {:induction false} OneServer(ps: seq<ProxyEntry>, servers: map<string, HttpProxy>, list: seq<HttpProxy>, i: nat)
    requires GroupedAs(ps, servers) && Lists(servers, list) && i < |ps|
    ensures exists k :: 0 <= k < |list| && list[k].listenOn.sockaddr == ps[i].listenOn.sockaddr
  {
    assert Placed(ps[i].listenOn, servers);
    var a := ps[i].listenOn.sockaddr;
    assert ServerOk(ps, a, servers[a]);
    assert servers[a] in list;
  }

  lemma {:induction false} AgreedTimeoutsHonoured(ps: seq<ProxyEntry>, servers: map<string, HttpProxy>, i: nat)
    requires GroupedAs(ps, servers) && TimeoutsAgree(ps) && i < |ps|
    ensures ps[i].listenOn.sockaddr in servers
    ensures SameTimeouts(servers[ps[i].listenOn.sockaddr].listenOn, ps[i].listenOn)
  {
    var a := ps[i].listenOn.sockaddr;
    assert Placed(ps[i].listenOn, servers);
    assert ServerOk(ps, a, servers[a]);
    var f: nat :| FirstOn(ps, f, a) && servers[a].listenOn == ps[f].listenOn;
    assert f <= i;
  }
}
