/** client.go's proxy configuration: validation, SetProxy with its rollback, and the transports built under it. */
module ProxySwitch {
  import opened Common

  /** url.Parse: the scheme of a URL that parses. */
  type Parser = string -> Option<string>

  datatype Config = Config(
    proxyUrl: string,
    racing: bool,
    disableHttp3: bool,
    forceHttp1: bool,
    disableIPv4: bool,
    disableIPv6: bool,
    pins: nat,
    insecureSkipVerify: bool,
    dialerFactory: bool,
    dialContext: bool,
    dialer: NetDialer)

  /** A net.Dialer: its timeout, its local address, and a number for all its other options, zero for none. */
  datatype NetDialer = NetDialer(timeout: nat, localAddr: Option<string>, options: nat)

  /** What proxy.Direct dials with. */
  const BARE := NetDialer(0, None, 0)

  datatype Complaint =
    RacingWithoutHttp3 | RacingWithHttp1 | NoIP | PinsUnverified | TwoProxies | ProxyUnderDialer | TcpOnlyProxy

  function Scheme(parse: Parser, url: string): string {
    if parse(url).None? then "" else parse(url).value
  }

  predicate IsSocks5(parse: Parser, url: string) {
    Scheme(parse, url) == "socks5" || Scheme(parse, url) == "socks5h"
  }

  /** A proxy that QUIC can go through: none, or one that tunnels UDP. */
  predicate CarriesQuic(parse: Parser, url: string) {
    url == "" || IsSocks5(parse, url)
  }

  function ValidateProxyConfig(parse: Parser, url: string, racing: bool): (r: Option<Complaint>)
    ensures r.None? <==> (racing ==> CarriesQuic(parse, url))
  {
    if url == "" || !racing then None
    else if IsSocks5(parse, url) then None
    else Some(TcpOnlyProxy)
  }

  /** A valid racing configuration can serve HTTP/3, and a valid configuration has one proxy mechanism at most. */
  function ValidateConfig(parse: Parser, c: Config): (r: Option<Complaint>)
    ensures r.None? && c.racing ==> !c.disableHttp3 && !c.forceHttp1 && CarriesQuic(parse, c.proxyUrl)
    ensures r.None? && c.proxyUrl != "" ==> !c.dialerFactory && !c.dialContext
    ensures r.None? ==> !(c.disableIPv4 && c.disableIPv6) && !(c.pins > 0 && c.insecureSkipVerify)
    ensures r.None? ==> !(c.dialContext && c.dialerFactory)
  {
    if c.racing && c.disableHttp3 then Some(RacingWithoutHttp3)
    else if c.racing && c.forceHttp1 then Some(RacingWithHttp1)
    else if c.disableIPv4 && c.disableIPv6 then Some(NoIP)
    else if c.pins > 0 && c.insecureSkipVerify then Some(PinsUnverified)
    else if c.proxyUrl != "" && c.dialerFactory then Some(TwoProxies)
    else if c.dialContext && (c.proxyUrl != "" || c.dialerFactory) then Some(ProxyUnderDialer)
    else ValidateProxyConfig(parse, c.proxyUrl, c.racing)
  }

  /** A proxy carries QUIC exactly if there is none or its URL parses with one of the SOCKS5 schemes. */
  lemma CarriesQuicMeans(parse: Parser, url: string)
    ensures CarriesQuic(parse, url) <==> url == "" || parse(url) == Some("socks5") || parse(url) == Some("socks5h")
  {
  }

  /** Exactly which configurations are valid. */
  lemma ValidExactlyWhen(parse: Parser, c: Config)
    ensures ValidateConfig(parse, c).None? <==>
            && (c.racing ==> !c.disableHttp3 && !c.forceHttp1)
            && !(c.disableIPv4 && c.disableIPv6)
            && !(c.pins > 0 && c.insecureSkipVerify)
            && (if c.dialContext then c.proxyUrl == "" && !c.dialerFactory else c.proxyUrl == "" || !c.dialerFactory)
            && (c.racing && c.proxyUrl != "" ==> parse(c.proxyUrl) in {Some("socks5"), Some("socks5h")})
  {
    CarriesQuicMeans(parse, c.proxyUrl);
  }

  // ----- Whole runs

  /** Whether a dialer for the proxy and a round tripper could be made. */
  datatype Luck = Luck(dials: bool, pins: bool)

  predicate Applies(url: string, factory: bool, luck: Luck) {
    luck.pins && (url != "" || factory ==> luck.dials)
  }

  /** An HTTP/3 transport in a cache: its key and the proxy it was built with. */
  datatype H3 = H3(key: string, proxy: string)

  /** Where TCP dials go: to the server, through a proxy, or to a dialer of the user's, which may have got the URL. */
  datatype Route = Direct(dialer: NetDialer) | Through(proxy: string) | FromFactory(proxy: string) | Custom

  /** The route a configuration asks for with this proxy; direct is what dials without any. */
  function RouteFor(c: Config, url: string, direct: NetDialer): Route {
    if c.dialContext then Custom
    else if c.dialerFactory then FromFactory(url)
    else if url != "" then Through(url)
    else Direct(direct)
  }

  /** A round tripper: the proxy it was made with, its dialer, and the HTTP/3 transports it ever cached. */
  datatype Tripper = Tripper(proxy: string, route: Route, h3: seq<H3>)

  datatype World = World(proxyUrl: string, live: nat, trippers: seq<Tripper>)

  /** How an HTTP/3 transport comes to be built: by a negotiated setup dial, for a cached protocol, for a race won. */
  datatype Path = Negotiated | Remembered | Won

  datatype Event =
    | SetProxy(url: string, first: Luck, second: Luck)
    | Http3(tripper: nat, path: Path, addr: string, builds: bool)

  function CacheKey(path: Path, addr: string): string {
    if path.Negotiated? then addr else addr + ":h3"
  }

  /** Construction dials directly with the configured dialer, applyProxy with a bare one. */
  function NewTripper(c: Config, url: string, direct: NetDialer): Tripper {
    Tripper(url, RouteFor(c, url, direct), [])
  }

  function Made(c: Config, w: World): World {
    w.(live := |w.trippers|, trippers := w.trippers + [NewTripper(c, w.proxyUrl, BARE)])
  }

  /** The new proxy if it validates and applies; otherwise the old one, with a new round tripper if one can be made. */
  function Switched(parse: Parser, c: Config, w: World, url: string, first: Luck, second: Luck): World {
    if ValidateProxyConfig(parse, url, c.racing).Some? then w
    else if Applies(url, c.dialerFactory, first) then Made(c, w.(proxyUrl := url))
    else if Applies(w.proxyUrl, c.dialerFactory, second) then Made(c, w)
    else w
  }

  function Cached(parse: Parser, c: Config, w: World, n: nat, path: Path, addr: string, builds: bool): World {
    if n >= |w.trippers| || (!path.Negotiated? && !c.racing) then w
    else
      var t := w.trippers[n];
      if !BuildHTTP3(parse, t.proxy, builds) then w
      else w.(trippers := w.trippers[n := t.(h3 := t.h3 + [H3(CacheKey(path, addr), t.proxy)])])
  }

  /** buildHTTP3Transport: a proxy that does not parse or does not tunnel UDP is refused. */
  predicate BuildHTTP3(parse: Parser, proxy: string, builds: bool) {
    builds && (proxy == "" || parse(proxy) in {Some("socks5"), Some("socks5h")})
  }

  function After(parse: Parser, c: Config, w: World, e: Event): World {
    match e
    case SetProxy(url, first, second) => Switched(parse, c, w, url, first, second)
    case Http3(n, path, addr, builds) => Cached(parse, c, w, n, path, addr, builds)
  }

  /** A client right after construction, if it can be constructed. */
  function Constructed(parse: Parser, c: Config, luck: Luck): Option<World> {
    if ValidateConfig(parse, c).Some? || !Applies(c.proxyUrl, c.dialerFactory, luck) then None
    else Some(World(c.proxyUrl, 0, [NewTripper(c, c.proxyUrl, c.dialer)]))
  }

  function Play(parse: Parser, c: Config, luck: Luck, events: seq<Event>): Option<World> {
    if events == [] then Constructed(parse, c, luck)
    else
      var w := Play(parse, c, luck, events[..|events| - 1]);
      if w.None? then None else Some(After(parse, c, w.value, events[|events| - 1]))
  }

  /** No HTTP/3 transport goes around a proxy: each was built with its round tripper's, and that one carries QUIC. */
  ghost predicate Tunnels(parse: Parser, t: Tripper) {
    forall i :: 0 <= i < |t.h3| ==> t.h3[i].proxy == t.proxy && CarriesQuic(parse, t.h3[i].proxy)
  }

  ghost predicate Inv(parse: Parser, c: Config, w: World) {
    && w.live < |w.trippers|
    && w.trippers[w.live].proxy == w.proxyUrl
    && w.trippers[w.live].route == RouteFor(c, w.proxyUrl, if w.live == 0 then c.dialer else BARE)
    && (forall n :: 0 <= n < |w.trippers| ==> Tunnels(parse, w.trippers[n]))
    && (c.racing ==> forall n :: 0 <= n < |w.trippers| ==> CarriesQuic(parse, w.trippers[n].proxy))
  }

  lemma AfterKeeps(parse: Parser, c: Config, w: World, e: Event)
    requires Inv(parse, c, w)
    ensures Inv(parse, c, After(parse, c, w, e))
  {
    if e.Http3? && e.tripper < |w.trippers| {
      var t, t' := w.trippers[e.tripper], After(parse, c, w, e).trippers[e.tripper];
      assert Tunnels(parse, t);
      assert Tunnels(parse, t');
      assert t'.proxy == t.proxy && t'.route == t.route;
    }
  }

  lemma {:induction false} RunKeeps(parse: Parser, c: Config, luck: Luck, events: seq<Event>)
    requires Play(parse, c, luck, events).Some?
    ensures Inv(parse, c, Play(parse, c, luck, events).value)
  {
    if events != [] {
      RunKeeps(parse, c, luck, events[..|events| - 1]);
      AfterKeeps(parse, c, Play(parse, c, luck, events[..|events| - 1]).value, events[|events| - 1]);
    }
  }

  /** With a proxy configured, TCP dials go through it, or to a dialer that the factory made for it. */
  predicate TcpProxied(w: World)
    requires w.live < |w.trippers|
  {
    w.proxyUrl != "" ==> w.trippers[w.live].route in {Through(w.proxyUrl), FromFactory(w.proxyUrl)}
  }

  /**
  After construction and any proxy switches and HTTP/3 builds, whatever they return: the configured proxy is the one
  the live round tripper was made with, and TCP dials use it unless the client has a custom dialer; a racing client's
  carries QUIC, so that no HTTP/3 build is refused for its proxy; and every HTTP/3 transport ever cached by any round
  tripper was built with an empty or SOCKS5 proxy.
  */
  lemma {:induction false} ProxyIsLive(parse: Parser, c: Config, luck: Luck, events: seq<Event>)
    requires Play(parse, c, luck, events).Some?
    ensures var w := Play(parse, c, luck, events).value;
            && w.live < |w.trippers| && w.trippers[w.live].proxy == w.proxyUrl
            && w.trippers[w.live].route == RouteFor(c, w.proxyUrl, if w.live == 0 then c.dialer else BARE)
            && (c.dialContext ==> w.trippers[w.live].route == Custom)
            && (!c.dialContext && c.dialerFactory ==> w.trippers[w.live].route == FromFactory(w.proxyUrl))
            && (!c.dialContext && !c.dialerFactory ==>
                  if w.proxyUrl != "" then w.trippers[w.live].route == Through(w.proxyUrl)
                  else w.trippers[w.live].route.Direct?)
            && (TcpProxied(w) <==> w.proxyUrl == "" || !c.dialContext)
            && (c.racing ==> CarriesQuic(parse, w.proxyUrl))
            && (c.racing ==> forall builds :: BuildHTTP3(parse, w.proxyUrl, builds) == builds)
    ensures var w := Play(parse, c, luck, events).value;
            forall n, i :: 0 <= n < |w.trippers| && 0 <= i < |w.trippers[n].h3| ==>
              w.trippers[n].h3[i].proxy == w.trippers[n].proxy && CarriesQuic(parse, w.trippers[n].h3[i].proxy)
  {
    RunKeeps(parse, c, luck, events);
    var w := Play(parse, c, luck, events).value;
    forall n, i | 0 <= n < |w.trippers| && 0 <= i < |w.trippers[n].h3|
      ensures w.trippers[n].h3[i].proxy == w.trippers[n].proxy && CarriesQuic(parse, w.trippers[n].h3[i].proxy)
    {
      assert Tunnels(parse, w.trippers[n]);
    }
  }

  /**
  SetProxy repeats only the racing check. After any run the configuration with the current proxy is one that
  NewHttpClient would accept exactly if no proxy is set or neither a dialer factory nor a custom dialer is; and TCP
  dials use the proxy exactly if none is set or there is no custom dialer.
  */
  lemma {:induction false} StillValidExactlyWhen(parse: Parser, c: Config, luck: Luck, events: seq<Event>)
    requires Play(parse, c, luck, events).Some?
    ensures var w := Play(parse, c, luck, events).value;
            && w.live < |w.trippers|
            && (ValidateConfig(parse, c.(proxyUrl := w.proxyUrl)).None? <==>
                w.proxyUrl == "" || (!c.dialerFactory && !c.dialContext))
            && (TcpProxied(w) <==> w.proxyUrl == "" || !c.dialContext)
  {
    RunKeeps(parse, c, luck, events);
    StartedValid(parse, c, luck, events);
  }

  lemma {:induction false} StartedValid(parse: Parser, c: Config, luck: Luck, events: seq<Event>)
    requires Play(parse, c, luck, events).Some?
    ensures ValidateConfig(parse, c).None?
  {
    if events != [] {
      StartedValid(parse, c, luck, events[..|events| - 1]);
    }
  }

  /**
  After any run TCP dials go where construction with the current proxy would send them exactly if the live round
  tripper is still the one made at construction, a proxy, a dialer factory or a custom dialer is set, or the configured
  dialer has no timeout, local address or other option to lose.
  */
  lemma {:induction false} SameRouteExactlyWhen(parse: Parser, c: Config, luck: Luck, events: seq<Event>)
    requires Play(parse, c, luck, events).Some?
    ensures var w := Play(parse, c, luck, events).value;
            && w.live < |w.trippers|
            && (w.trippers[w.live].route == RouteFor(c, w.proxyUrl, c.dialer) <==>
                w.live == 0 || w.proxyUrl != "" || c.dialerFactory || c.dialContext || c.dialer == BARE)
  {
    RunKeeps(parse, c, luck, events);
  }

  /**
  So a client without a proxy loses its local address even by a switch that fails, whose rollback applies and reports
  no error.
  */
  lemma RollbackLosesDialer(parse: Parser, c: Config, url: string)
    requires ValidateConfig(parse, c).None? && c.proxyUrl == "" && !c.dialerFactory && !c.dialContext
    requires c.dialer != BARE
    requires url != "" && ValidateProxyConfig(parse, url, c.racing).None?
    ensures var good, bad := Luck(true, true), Luck(false, true);
            var w := Play(parse, c, good, [SetProxy(url, bad, good)]);
            && w.Some? && w.value.proxyUrl == "" && w.value.live < |w.value.trippers|
            && w.value.trippers[w.value.live].route == Direct(BARE) != RouteFor(c, "", c.dialer)
  {
    var good, bad := Luck(true, true), Luck(false, true);
    var events := [SetProxy(url, bad, good)];
    assert events[..0] == [];
    assert Play(parse, c, good, []) == Constructed(parse, c, good);
  }

  /** Both happen: a client with a custom dialer can be given a proxy, which its TCP dials then ignore. */
  lemma ProxyIgnored(parse: Parser, c: Config, url: string)
    requires ValidateConfig(parse, c).None? && c.dialContext && url != ""
    requires ValidateProxyConfig(parse, url, c.racing).None?
    ensures var good := Luck(true, true);
            var w := Play(parse, c, good, [SetProxy(url, good, good)]);
            && w.Some? && w.value.proxyUrl == url && w.value.live < |w.value.trippers|
            && !TcpProxied(w.value) && ValidateConfig(parse, c.(proxyUrl := url)).Some?
  {
    var good := Luck(true, true);
    var events := [SetProxy(url, good, good)];
    assert events[..0] == [];
    assert Play(parse, c, good, []) == Constructed(parse, c, good);
    StillValidExactlyWhen(parse, c, good, events);
  }

  // ----- The code

  class RoundTripper {
    const proxyURL: string
    const route: Route
    var h3: seq<H3>

    constructor (proxyURL: string, route: Route)
      ensures View() == Tripper(proxyURL, route, [])
    {
      this.proxyURL, this.route, this.h3 := proxyURL, route, [];
    }

    function View(): Tripper
      reads this
    {
      Tripper(proxyURL, route, h3)
    }

    /** A build on any path: what cannot be built is not cached. */
    method CacheHttp3(parse: Parser, path: Path, addr: string, builds: bool) returns (ok: bool)
      modifies this
      ensures ok <==> builds && CarriesQuic(parse, proxyURL)
      ensures var key := if path.Negotiated? then addr else addr + ":h3";
              View() == if ok then old(View()).(h3 := old(h3) + [H3(key, proxyURL)]) else old(View())
    {
      if proxyURL != "" {
        var scheme := parse(proxyURL);
        if scheme.None? {
          return false;
        }
        if scheme.value != "socks5" && scheme.value != "socks5h" {
          return false;
        }
      }
      if !builds {
        return false;
      }
      h3 := h3 + [H3(CacheKey(path, addr), proxyURL)];
      return true;
    }
  }

  class HttpClient {
    const config: Config
    var proxyUrl: string
    var transport: RoundTripper

    constructor (config: Config)
      ensures this.config == config && proxyUrl == config.proxyUrl
      ensures fresh(transport) && transport.View() == NewTripper(config, config.proxyUrl, config.dialer)
    {
      this.config, proxyUrl := config, config.proxyUrl;
      transport := new RoundTripper(config.proxyUrl, RouteFor(config, config.proxyUrl, config.dialer));
    }

    /** applyProxy: a new round tripper with the configured proxy, or an error and the old one. */
    method ApplyProxy(luck: Luck) returns (ok: bool)
      modifies this`transport
      ensures ok <==> luck.pins && ((proxyUrl == "" && !config.dialerFactory) || luck.dials)
      ensures if ok then fresh(transport) && transport.View() == NewTripper(config, proxyUrl, BARE)
              else transport == old(transport)
    {
      var dialer := Direct(BARE);
      if proxyUrl != "" && !config.dialerFactory {
        if !luck.dials {
          return false;
        }
        dialer := Through(proxyUrl);
      }
      if config.dialerFactory {
        if !luck.dials {
          return false;
        }
        dialer := FromFactory(proxyUrl);
      }
      if config.dialContext {
        dialer := Custom;
      }
      if !luck.pins {
        return false;
      }
      transport := new RoundTripper(proxyUrl, dialer);
      return true;
    }

    /**
    SetProxy. The proxy is the new one exactly if it validates and can be applied. The call reports no error then, and
    also when the rollback could be applied.
    */
    method SetProxy(parse: Parser, url: string, first: Luck, second: Luck) returns (ok: bool)
      modifies this`proxyUrl, this`transport
      ensures var valid := ValidateProxyConfig(parse, url, config.racing).None?;
              var applied := valid && Applies(url, config.dialerFactory, first);
              var restored := valid && !applied && Applies(old(proxyUrl), config.dialerFactory, second);
              && (ok <==> applied || restored)
              && proxyUrl == (if applied then url else old(proxyUrl))
              && (if ok then fresh(transport) && transport.View() == NewTripper(config, proxyUrl, BARE)
                  else transport == old(transport))
    {
      var currentProxy := proxyUrl;
      if ValidateProxyConfig(parse, url, config.racing).Some? {
        return false;
      }
      proxyUrl := url;
      ok := ApplyProxy(first);
      if !ok {
        proxyUrl := currentProxy;
        ok := ApplyProxy(second);
      }
    }
  }

  method NewHttpClient(parse: Parser, config: Config, luck: Luck) returns (c: HttpClient?)
    ensures c == null <==> Constructed(parse, config, luck).None?
    ensures c == null <==> ValidateConfig(parse, config).Some? || !luck.pins
                           || (!luck.dials && (config.proxyUrl != "" || config.dialerFactory))
    ensures c != null ==> fresh(c) && c.config == config && c.proxyUrl == config.proxyUrl
    ensures c != null ==> fresh(c.transport) && c.transport.View() == NewTripper(config, config.proxyUrl, config.dialer)
  {
    if ValidateConfig(parse, config).Some? {
      return null;
    }
    if config.proxyUrl != "" && !config.dialerFactory && !luck.dials {
      return null;
    }
    if config.dialerFactory && !luck.dials {
      return null;
    }
    if !luck.pins {
      return null;
    }
    c := new HttpClient(config);
  }

  // ----- Any run of the code

  function Views(ts: seq<RoundTripper>): (r: seq<Tripper>)
    reads ts
    ensures |r| == |ts|
  {
    seq(|ts|, i requires 0 <= i < |ts| reads ts => ts[i].View())
  }

  ghost predicate Distinct(ts: seq<RoundTripper>) {
    forall n, m :: 0 <= n < m < |ts| ==> ts[n] != ts[m]
  }

  lemma PlayNext(parse: Parser, config: Config, luck: Luck, events: seq<Event>, k: nat, w: World)
    requires k < |events| && Play(parse, config, luck, events[..k]) == Some(w)
    ensures Play(parse, config, luck, events[..k + 1]) == Some(After(parse, config, w, events[k]))
  {
    assert events[..k + 1][..k] == events[..k];
  }

  /** Any proxy switches, and HTTP/3 builds of live and replaced round trippers, do what the run's spec says. */
  method Drive(parse: Parser, config: Config, luck: Luck, events: seq<Event>)
      returns (c: HttpClient?, ts: seq<RoundTripper>, live: nat)
    ensures c == null <==> Play(parse, config, luck, events).None?
    ensures c != null ==>
              live < |ts| && ts[live] == c.transport
              && Play(parse, config, luck, events) == Some(World(c.proxyUrl, live, Views(ts)))
  {
    live, ts := 0, [];
    c := NewHttpClient(parse, config, luck);
    if c == null {
      NeverConstructed(parse, config, luck, events);
      return;
    }
    ts := [c.transport];
    assert Views(ts) == [NewTripper(config, config.proxyUrl, config.dialer)] && events[..0] == [];
    for k := 0 to |events|
      invariant fresh(c) && c.config == config
      invariant forall n :: 0 <= n < |ts| ==> fresh(ts[n])
      invariant Distinct(ts) && live < |ts| && ts[live] == c.transport
      invariant Play(parse, config, luck, events[..k]) == Some(World(c.proxyUrl, live, Views(ts)))
    {
      PlayNext(parse, config, luck, events, k, World(c.proxyUrl, live, Views(ts)));
      live, ts := StepOne(parse, config, events[k], c, ts, live);
    }
    assert events[..|events|] == events;
  }

  method StepOne(parse: Parser, config: Config, e: Event, c: HttpClient, ts: seq<RoundTripper>, live: nat)
      returns (live': nat, ts': seq<RoundTripper>)
    requires c.config == config && live < |ts| && ts[live] == c.transport && Distinct(ts)
    modifies c, ts
    ensures Distinct(ts') && live' < |ts'| && ts'[live'] == c.transport
    ensures forall n :: 0 <= n < |ts'| ==> ts'[n] in ts || fresh(ts'[n])
    ensures World(c.proxyUrl, live', Views(ts')) == After(parse, config, old(World(c.proxyUrl, live, Views(ts))), e)
  {
    live', ts' := live, ts;
    match e
    case SetProxy(url, first, second) =>
      var before := c.transport;
      var ok := c.SetProxy(parse, url, first, second);
      if c.transport != before {
        live', ts' := |ts|, ts + [c.transport];
      }
    case Http3(n, path, addr, builds) =>
      if n < |ts| && (path.Negotiated? || config.racing) {
        var ok := ts[n].CacheHttp3(parse, path, addr, builds);
      }
  }

  lemma {:induction false} NeverConstructed(parse: Parser, config: Config, luck: Luck, events: seq<Event>)
    requires Constructed(parse, config, luck).None?
    ensures Play(parse, config, luck, events).None?
  {
    if events != [] {
      NeverConstructed(parse, config, luck, events[..|events| - 1]);
    }
  }
}
