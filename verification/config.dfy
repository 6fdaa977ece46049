/** Configuration: the conflict check over all proxies, and their grouping by listening address. */
module Config {
  import opened Wrappers
  import opened Filters

  datatype Protocol = Http | Https(certificate: seq<string>, key: string)

  /** Where to listen; the socket address in its printed form. */
  datatype Listener = Listener(
    protocol: Protocol,
    sockaddr: string,
    headerReadTimeout: nat,
    requestResponseTimeout: nat,
    handler: string)

  datatype ConnectTo = ConnectTo(url: string, tolerateBadTls: bool, timeout: nat)

  datatype Target = Target(connectTo: ConnectTo, labelFilters: seq<Selector>, cacheDuration: nat)

  datatype ProxyEntry = ProxyEntry(
    listenOn: Listener,
    connectTo: ConnectTo,
    labelFilters: seq<Selector>,
    cacheDuration: nat)

  datatype Config = Config(proxies: seq<ProxyEntry>, metrics: Option<Listener>)

  /** Which proxy (counted from 0) conflicts with which earlier one, and how. */
  datatype Conflict =
    | SameHandler(prior: nat, index: nat)
    | DifferentCertificate(prior: nat, index: nat)
    | DifferentKey(prior: nat, index: nat)
    | DifferentProtocol(prior: nat, index: nat)
    | TelemetryAddress(proxy: nat)

  /** A printed socket address holds no slash. */
  predicate Printed(sockaddr: string) {
    '/' !in sockaddr
  }

  predicate AllPrinted(cfg: Config) {
    && (forall i | 0 <= i < |cfg.proxies| :: Printed(cfg.proxies[i].listenOn.sockaddr))
    && (cfg.metrics.Some? ==> Printed(cfg.metrics.value.sockaddr))
  }

  function HandlerKey(l: Listener): string {
    l.sockaddr + "/" + l.handler
  }

  lemma {:induction false} HandlerKeyTells(a: Listener, b: Listener)
    requires Printed(a.sockaddr) && Printed(b.sockaddr)
    ensures HandlerKey(a) == HandlerKey(b) <==> a.sockaddr == b.sockaddr && a.handler == b.handler
  {
    if HandlerKey(a) == HandlerKey(b) {
      var text := HandlerKey(a);
      assert text[|a.sockaddr|] == '/' && text[|b.sockaddr|] == '/';
      assert forall i | 0 <= i < |a.sockaddr| :: text[i] == a.sockaddr[i];
      assert forall i | 0 <= i < |b.sockaddr| :: text[i] == b.sockaddr[i];
      assert |a.sockaddr| == |b.sockaddr|;
      assert a.sockaddr == text[..|a.sockaddr|] == b.sockaddr;
      assert a.handler == text[|a.sockaddr| + 1..] == b.handler;
    }
  }

  /** Two proxies on one address must differ in handler and agree on protocol, certificate and key. */
  predicate Compatible(a: Listener, b: Listener) {
    a.sockaddr == b.sockaddr ==> a.handler != b.handler && a.protocol == b.protocol
  }

  predicate ConflictFree(proxies: seq<ProxyEntry>) {
    forall i, j | 0 <= i < j < |proxies| :: Compatible(proxies[i].listenOn, proxies[j].listenOn)
  }

  predicate TelemetryApart(cfg: Config) {
    cfg.metrics.Some? ==>
      forall i | 0 <= i < |cfg.proxies| :: cfg.proxies[i].listenOn.sockaddr != cfg.metrics.value.sockaddr
  }

  /** The two listeners differ, or agree, as the conflict says. */
  predicate Between(c: Conflict, a: Listener, b: Listener) {
    match c
    case SameHandler(_, _) => a.handler == b.handler
    case DifferentCertificate(_, _) =>
      a.protocol.Https? && b.protocol.Https? && a.protocol.certificate != b.protocol.certificate
    case DifferentKey(_, _) =>
      && a.protocol.Https? && b.protocol.Https?
      && a.protocol.certificate == b.protocol.certificate && a.protocol.key != b.protocol.key
    case DifferentProtocol(_, _) => a.protocol.Http? != b.protocol.Http?
    case TelemetryAddress(_) => false
  }

  /** `i` is the first proxy on the address. */
  predicate FirstOn(ps: seq<ProxyEntry>, i: nat, sockaddr: string) {
    && i < |ps| && ps[i].listenOn.sockaddr == sockaddr
    && forall j | 0 <= j < i :: ps[j].listenOn.sockaddr != sockaddr
  }

  /** The conflict is there, and nothing before proxy `index` conflicts. */
  predicate Explains(c: Conflict, cfg: Config) {
    var ps := cfg.proxies;
    if c.TelemetryAddress? then
      ConflictFree(ps) && cfg.metrics.Some? && FirstOn(ps, c.proxy, cfg.metrics.value.sockaddr)
    else
      && c.prior < c.index < |ps| && ConflictFree(ps[..c.index])
      && ps[c.prior].listenOn.sockaddr == ps[c.index].listenOn.sockaddr
      && Between(c, ps[c.prior].listenOn, ps[c.index].listenOn)
      && (c.SameHandler? || FirstOn(ps, c.prior, ps[c.index].listenOn.sockaddr))
  }

  /** The conflict is between two proxies, which cannot both be served. */
  predicate Refusal(c: Conflict, cfg: Config) {
    && Explains(c, cfg) && !c.TelemetryAddress?
    && !Compatible(cfg.proxies[c.prior].listenOn, cfg.proxies[c.index].listenOn)
  }

  datatype IndexAndProtocol = IndexAndProtocol(index: nat, protocol: Protocol)

  predicate HandlersSeen(ps: seq<ProxyEntry>, n: nat, seen: map<string, nat>)
    requires n <= |ps|
  {
    && (forall k | k in seen :: seen[k] < n && HandlerKey(ps[seen[k]].listenOn) == k)
    && (forall i | 0 <= i < n :: HandlerKey(ps[i].listenOn) in seen)
  }

  /** The first proxy on each address so far, which all later ones there agree with. */
  predicate AddressesSeen(ps: seq<ProxyEntry>, n: nat, seen: map<string, IndexAndProtocol>)
    requires n <= |ps|
  {
    && (forall k | k in seen ::
          && seen[k].index < n && ps[seen[k].index].listenOn.sockaddr == k
          && ps[seen[k].index].listenOn.protocol == seen[k].protocol
          && (forall i | 0 <= i < seen[k].index :: ps[i].listenOn.sockaddr != k))
    && (forall i | 0 <= i < n ::
          && ps[i].listenOn.sockaddr in seen
          && ps[i].listenOn.protocol == seen[ps[i].listenOn.sockaddr].protocol)
  }

  /** One address, two proxies: certificate first, then key, then the protocol as a whole. */
  method CompareProtocols(prior: IndexAndProtocol, ghost priorListener: Listener, index: nat, listenOn: Listener)
    returns (conflict: Option<Conflict>)
    requires priorListener.protocol == prior.protocol
    ensures conflict.None? <==> listenOn.protocol == prior.protocol
    ensures conflict.Some? ==>
      && Between(conflict.value, priorListener, listenOn)
      && !conflict.value.SameHandler? && !conflict.value.TelemetryAddress?
      && conflict.value.prior == prior.index && conflict.value.index == index
  {
    if listenOn.protocol.Https? && prior.protocol.Https? {
      if listenOn.protocol.certificate != prior.protocol.certificate {
        return Some(DifferentCertificate(prior.index, index));
      }
      if listenOn.protocol.key != prior.protocol.key {
        return Some(DifferentKey(prior.index, index));
      }
    }
    if listenOn.protocol != prior.protocol {
      return Some(DifferentProtocol(prior.index, index));
    }
    return None;
  }

  /** What the pass knows before proxy `index`. */
  ghost predicate PassedUpTo(
    ps: seq<ProxyEntry>, index: nat, handlers: map<string, nat>, addresses: map<string, IndexAndProtocol>) {
    index <= |ps| && HandlersSeen(ps, index, handlers) && AddressesSeen(ps, index, addresses)
      && ConflictFree(ps[..index])
  }

  /** One proxy against the maps: a conflict, or the maps one proxy further. */
  method CheckProxy(cfg: Config, index: nat, handlers: map<string, nat>, addresses: map<string, IndexAndProtocol>)
    returns (conflict: Option<Conflict>, handlers': map<string, nat>, addresses': map<string, IndexAndProtocol>)
    requires AllPrinted(cfg) && index < |cfg.proxies| && PassedUpTo(cfg.proxies, index, handlers, addresses)
    ensures conflict.Some? ==> Refusal(conflict.value, cfg)
    ensures conflict.None? ==> PassedUpTo(cfg.proxies, index + 1, handlers', addresses')
  {
    handlers', addresses' := handlers, addresses;
    var listenOn := cfg.proxies[index].listenOn;
    var hostPortHandler := HandlerKey(listenOn);
    if hostPortHandler in handlers {
      SameHandlerExplains(cfg, index, handlers, addresses);
      conflict := Some(SameHandler(handlers[hostPortHandler], index));
      return;
    }
    NewHandler(cfg, index, handlers);
    HandlerAdded(cfg.proxies, index, handlers);
    handlers' := handlers[hostPortHandler := index];

    conflict, addresses' := CheckAddress(cfg, index, addresses);
    if conflict.None? {
      PrefixGrows(cfg.proxies, index, addresses');
    }
  }

  /** One proxy against the first on its address. */
  method CheckAddress(cfg: Config, index: nat, addresses: map<string, IndexAndProtocol>)
    returns (conflict: Option<Conflict>, addresses': map<string, IndexAndProtocol>)
    requires index < |cfg.proxies| && AddressesSeen(cfg.proxies, index, addresses) && ConflictFree(cfg.proxies[..index])
    ensures conflict.Some? ==> Refusal(conflict.value, cfg)
    ensures conflict.None? ==> AddressesSeen(cfg.proxies, index + 1, addresses')
  {
    addresses' := addresses;
    var listenOn := cfg.proxies[index].listenOn;
    var hostPort := listenOn.sockaddr;
    if hostPort in addresses {
      var prior := addresses[hostPort];
      conflict := CompareProtocols(prior, cfg.proxies[prior.index].listenOn, index, listenOn);
      if conflict.Some? {
        ProtocolExplains(cfg, index, addresses, conflict.value);
        return;
      }
      AddressKnown(cfg.proxies, index, addresses);
    } else {
      AddressAdded(cfg.proxies, index, addresses);
      addresses' := addresses[hostPort := IndexAndProtocol(index, listenOn.protocol)];
      conflict := None;
    }
  }

  /** The linear pass compares each proxy only with the first on its address. */
  method CheckProxies(cfg: Config) returns (conflict: Option<Conflict>, byHostPort: map<string, IndexAndProtocol>)
    requires AllPrinted(cfg)
    ensures conflict.None? <==> ConflictFree(cfg.proxies)
    ensures conflict.Some? ==> Explains(conflict.value, cfg) && !conflict.value.TelemetryAddress?
    ensures conflict.None? ==> AddressesSeen(cfg.proxies, |cfg.proxies|, byHostPort)
  {
    var byHostPortHandler: map<string, nat> := map[];
    byHostPort := map[];
    conflict := None;
    for index := 0 to |cfg.proxies|
      invariant PassedUpTo(cfg.proxies, index, byHostPortHandler, byHostPort)
      invariant conflict.None?
    {
      conflict, byHostPortHandler, byHostPort := CheckProxy(cfg, index, byHostPortHandler, byHostPort);
      if conflict.Some? {
        return;
      }
    }
    assert cfg.proxies[..|cfg.proxies|] == cfg.proxies;
  }

  lemma {:induction false} SameHandlerExplains(
    cfg: Config, index: nat, handlers: map<string, nat>, addresses: map<string, IndexAndProtocol>)
    requires AllPrinted(cfg) && index < |cfg.proxies| && PassedUpTo(cfg.proxies, index, handlers, addresses)
    requires HandlerKey(cfg.proxies[index].listenOn) in handlers
    ensures Refusal(SameHandler(handlers[HandlerKey(cfg.proxies[index].listenOn)], index), cfg)
  {
    var prior := handlers[HandlerKey(cfg.proxies[index].listenOn)];
    HandlerKeyTells(cfg.proxies[prior].listenOn, cfg.proxies[index].listenOn);
  }

  lemma {:induction false} ProtocolExplains(
    cfg: Config, index: nat, addresses: map<string, IndexAndProtocol>, c: Conflict)
    requires index < |cfg.proxies| && AddressesSeen(cfg.proxies, index, addresses) && ConflictFree(cfg.proxies[..index])
    requires cfg.proxies[index].listenOn.sockaddr in addresses
    requires !c.SameHandler? && !c.TelemetryAddress? && c.index == index
    requires
      var prior := addresses[cfg.proxies[index].listenOn.sockaddr];
      c.prior == prior.index && Between(c, cfg.proxies[prior.index].listenOn, cfg.proxies[index].listenOn)
    ensures Refusal(c, cfg)
  {
  }

  lemma {:induction false} AddressKnown(ps: seq<ProxyEntry>, index: nat, seen: map<string, IndexAndProtocol>)
    requires index < |ps| && AddressesSeen(ps, index, seen) && ps[index].listenOn.sockaddr in seen
    requires seen[ps[index].listenOn.sockaddr].protocol == ps[index].listenOn.protocol
    ensures AddressesSeen(ps, index + 1, seen)
  {
  }

  lemma {:induction false} AddressAdded(ps: seq<ProxyEntry>, index: nat, seen: map<string, IndexAndProtocol>)
    requires index < |ps| && AddressesSeen(ps, index, seen) && ps[index].listenOn.sockaddr !in seen
    ensures AddressesSeen(ps, index + 1,
      seen[ps[index].listenOn.sockaddr := IndexAndProtocol(index, ps[index].listenOn.protocol)])
  {
  }

  /** Acceptance is exact, and a refusal names a real conflict. */
  method Validate(cfg: Config) returns (result: Result<Config, Conflict>)
    requires AllPrinted(cfg)
    ensures result.Success? <==> ConflictFree(cfg.proxies) && TelemetryApart(cfg)
    ensures result.Success? ==> result.value == cfg
    ensures result.Failure? ==> Explains(result.error, cfg)
  {
    var conflict, byHostPort := CheckProxies(cfg);
    if conflict.Some? {
      return Failure(conflict.value);
    }
    if cfg.metrics.Some? {
      var telemetry := cfg.metrics.value;
      if telemetry.sockaddr in byHostPort {
        return Failure(TelemetryAddress(byHostPort[telemetry.sockaddr].index));
      }
    }
    return Success(cfg);
  }

  lemma {:induction false} HandlerAdded(ps: seq<ProxyEntry>, index: nat, seen: map<string, nat>)
    requires index < |ps| && HandlersSeen(ps, index, seen)
    ensures HandlersSeen(ps, index + 1, seen[HandlerKey(ps[index].listenOn) := index])
  {
  }

  lemma {:induction false} NewHandler(cfg: Config, index: nat, seen: map<string, nat>)
    requires AllPrinted(cfg) && index < |cfg.proxies| && HandlersSeen(cfg.proxies, index, seen)
    requires HandlerKey(cfg.proxies[index].listenOn) !in seen
    ensures forall i | 0 <= i < index && cfg.proxies[i].listenOn.sockaddr == cfg.proxies[index].listenOn.sockaddr ::
      cfg.proxies[i].listenOn.handler != cfg.proxies[index].listenOn.handler
  {
    forall i | 0 <= i < index && cfg.proxies[i].listenOn.sockaddr == cfg.proxies[index].listenOn.sockaddr
      ensures cfg.proxies[i].listenOn.handler != cfg.proxies[index].listenOn.handler
    {
      HandlerKeyTells(cfg.proxies[i].listenOn, cfg.proxies[index].listenOn);
    }
  }

  lemma {:induction false} PrefixGrows(ps: seq<ProxyEntry>, index: nat, seen: map<string, IndexAndProtocol>)
    requires index < |ps| && ConflictFree(ps[..index])
    requires AddressesSeen(ps, index + 1, seen)
    requires forall i | 0 <= i < index && ps[i].listenOn.sockaddr == ps[index].listenOn.sockaddr ::
      ps[i].listenOn.handler != ps[index].listenOn.handler
    ensures ConflictFree(ps[..index + 1])
  {
    var longer := ps[..index + 1];
    forall i, j | 0 <= i < j < |longer| ensures Compatible(longer[i].listenOn, longer[j].listenOn) {
      if j < index {
        assert ps[..index][i] == longer[i] && ps[..index][j] == longer[j];
      } else {
        assert ps[i].listenOn.sockaddr in seen;
      }
    }
  }
}
