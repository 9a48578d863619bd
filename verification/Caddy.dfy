/** The renderer of internal/caddy/config.go as a compiler: the emitted configuration has a
    dispatch semantics, and that semantics is the direct routing of the route list. */
module Caddy {
  import opened Results
  import opened Text
  import opened Domain
  import opened Listing

  // ----- The emitted configuration -----

  datatype Transport = PlainTransport | TlsTransport(insecureSkipVerify: bool)

  datatype Handler =
    | ReverseProxy(dial: string, transport: Transport)
    | StaticResponse(status: int, location: string)

  datatype HostRoute = HostRoute(hosts: seq<string>, handlers: seq<Handler>, terminal: bool)

  datatype Server = Server(listen: seq<string>, routes: seq<HostRoute>)

  /** The parts of the JSON that decide what a request meets: the servers by name, and the
      subjects of the internal TLS issuer when that app is configured. */
  datatype Config = Config(servers: map<string, Server>, tlsSubjects: Option<seq<string>>)

  function Redirect(status: int): Handler {
    StaticResponse(status, "https://" + "{http.request.host}" + "{http.request.uri}")
  }
  const DOCKER_HOST: string := "host.docker.internal"

  /** net.JoinHostPort: a host with a colon is bracketed. */
  function JoinHostPort(host: string, port: string): string {
    if ':' in host then "[" + host + "]:" + port else host + ":" + port
  }

  function DialHost(host: string): string {
    if host == "localhost" || host == "127.0.0.1" || host == "::1" || host == "[::1]" then DOCKER_HOST else host
  }

  function DialAddress(parseIp: IpParser, upstream: Upstream): string {
    var dialHost := DialHost(upstream.host);
    if parseIp(dialHost) then JoinHostPort(dialHost, PrintInt(upstream.port))
    else dialHost + ":" + PrintInt(upstream.port)
  }

  function ProxyTo(parseIp: IpParser, upstream: Upstream): Handler {
    ReverseProxy(
      DialAddress(parseIp, upstream),
      if upstream.scheme == "https" then TlsTransport(upstream.skipTlsVerify) else PlainTransport)
  }

  /** reverseProxy, reassigning its dial host. */
  method ReverseProxyHandler(parseIp: IpParser, upstream: Upstream) returns (handler: Handler)
    ensures handler == ProxyTo(parseIp, upstream)
  {
    var dialHost := upstream.host;
    if dialHost == "localhost" || dialHost == "127.0.0.1" || dialHost == "::1" || dialHost == "[::1]" {
      dialHost := DOCKER_HOST;
    }
    if parseIp(dialHost) {
      dialHost := JoinHostPort(dialHost, PrintInt(upstream.port));
    } else {
      dialHost := dialHost + ":" + PrintInt(upstream.port);
    }
    var transport := PlainTransport;
    if upstream.scheme == "https" {
      transport := TlsTransport(false);
      if upstream.skipTlsVerify {
        transport := TlsTransport(true);
      }
    }
    handler := ReverseProxy(dialHost, transport);
  }

  function RouteForHost(host: string, handler: Handler): HostRoute {
    HostRoute([host], [handler], true)
  }

  function HttpHandler(parseIp: IpParser, route: Route): Handler {
    if route.publicMode == PUBLIC_HTTPS then Redirect(308) else ProxyTo(parseIp, route.upstream)
  }

  function HttpRoutes(parseIp: IpParser, zone: string, routes: seq<Route>): seq<HostRoute> {
    if routes == [] then []
    else if routes[0].enabled then
      [RouteForHost(FullHost(routes[0].hostname, zone), HttpHandler(parseIp, routes[0]))]
      + HttpRoutes(parseIp, zone, routes[1..])
    else HttpRoutes(parseIp, zone, routes[1..])
  }

  predicate ServesTls(route: Route) {
    route.enabled && route.publicMode == PUBLIC_HTTPS
  }

  function HttpsRoutes(parseIp: IpParser, zone: string, routes: seq<Route>): seq<HostRoute> {
    if routes == [] then []
    else if ServesTls(routes[0]) then
      [RouteForHost(FullHost(routes[0].hostname, zone), ProxyTo(parseIp, routes[0].upstream))]
      + HttpsRoutes(parseIp, zone, routes[1..])
    else HttpsRoutes(parseIp, zone, routes[1..])
  }

  function TlsSubjects(zone: string, routes: seq<Route>): seq<string> {
    if routes == [] then []
    else if ServesTls(routes[0]) then [FullHost(routes[0].hostname, zone)] + TlsSubjects(zone, routes[1..])
    else TlsSubjects(zone, routes[1..])
  }

  function Assemble(http: seq<HostRoute>, https: seq<HostRoute>, subjects: seq<string>): Config {
    if |https| > 0 then
      Config(map["http" := Server(["0.0.0.0:80"], http), "https" := Server(["0.0.0.0:443"], https)], Some(subjects))
    else
      Config(map["http" := Server(["0.0.0.0:80"], http)], None)
  }

  function Rendered(parseIp: IpParser, zone: string, routes: seq<Route>): Config {
    Assemble(HttpRoutes(parseIp, zone, routes), HttpsRoutes(parseIp, zone, routes), TlsSubjects(zone, routes))
  }

  /** The three lists after the first `i` routes: what is still to come completes them. */
  ghost predicate Emitted(parseIp: IpParser, zone: string, routes: seq<Route>, i: nat,
                          http: seq<HostRoute>, https: seq<HostRoute>, subjects: seq<string>)
    requires i <= |routes|
  {
    && http + HttpRoutes(parseIp, zone, routes[i..]) == HttpRoutes(parseIp, zone, routes)
    && https + HttpsRoutes(parseIp, zone, routes[i..]) == HttpsRoutes(parseIp, zone, routes)
    && subjects + TlsSubjects(zone, routes[i..]) == TlsSubjects(zone, routes)
  }

  lemma Reassociate<T>(a: seq<T>, b: seq<T>, c: seq<T>)
    ensures a + (b + c) == (a + b) + c
  {
  }

  lemma EmitNext(parseIp: IpParser, zone: string, routes: seq<Route>, i: nat,
                 http: seq<HostRoute>, https: seq<HostRoute>, subjects: seq<string>)
    requires i < |routes| && Emitted(parseIp, zone, routes, i, http, https, subjects)
    ensures var host := FullHost(routes[i].hostname, zone);
            Emitted(parseIp, zone, routes, i + 1,
              if routes[i].enabled then http + [RouteForHost(host, HttpHandler(parseIp, routes[i]))] else http,
              if ServesTls(routes[i])
              then https + [RouteForHost(host, ProxyTo(parseIp, routes[i].upstream))] else https,
              if ServesTls(routes[i]) then subjects + [host] else subjects)
  {
    var host := FullHost(routes[i].hostname, zone);
    assert routes[i..][0] == routes[i] && routes[i..][1..] == routes[i + 1..];
    Reassociate(http, [RouteForHost(host, HttpHandler(parseIp, routes[i]))],
        HttpRoutes(parseIp, zone, routes[i + 1..]));
    Reassociate(https, [RouteForHost(host, ProxyTo(parseIp, routes[i].upstream))],
        HttpsRoutes(parseIp, zone, routes[i + 1..]));
    Reassociate(subjects, [host], TlsSubjects(zone, routes[i + 1..]));
  }

  lemma EmittedAll(parseIp: IpParser, zone: string, routes: seq<Route>,
                   http: seq<HostRoute>, https: seq<HostRoute>, subjects: seq<string>)
    requires Emitted(parseIp, zone, routes, |routes|, http, https, subjects)
    ensures Assemble(http, https, subjects) == Rendered(parseIp, zone, routes)
  {
    var none := routes[|routes|..];
    assert none == [];
    assert HttpRoutes(parseIp, zone, none) == [] && HttpsRoutes(parseIp, zone, none) == []
        && TlsSubjects(zone, none) == [];
    assert http + [] == http && https + [] == https && subjects + [] == subjects;
  }

  /** The outcome of Render. */
  function RenderResult(parseIp: IpParser, zone: string, routes: seq<Route>): Result<Config, Error> {
    match ValidateZone(zone)
    case Some(error) => Err(error)
    case None => Ok(Rendered(parseIp, zone, routes))
  }

  /** Render, appending to its three lists in one pass. */
  method Render(parseIp: IpParser, zone: string, routes: seq<Route>) returns (config: Result<Config, Error>)
    ensures config == RenderResult(parseIp, zone, routes)
  {
    var error := ValidateZone(zone);
    if error.Some? {
      return Err(error.value);
    }
    var httpRoutes: seq<HostRoute> := [];
    var httpsRoutes: seq<HostRoute> := [];
    var tlsSubjects: seq<string> := [];
    for i := 0 to |routes|
      invariant Emitted(parseIp, zone, routes, i, httpRoutes, httpsRoutes, tlsSubjects)
    {
      var route := routes[i];
      EmitNext(parseIp, zone, routes, i, httpRoutes, httpsRoutes, tlsSubjects);
      if !route.enabled {
        continue;
      }
      var host := route.hostname + "." + zone;
      var proxy := ReverseProxyHandler(parseIp, route.upstream);
      if route.publicMode == PUBLIC_HTTPS {
        httpRoutes := httpRoutes + [RouteForHost(host, Redirect(308))];
        httpsRoutes := httpsRoutes + [RouteForHost(host, proxy)];
        tlsSubjects := tlsSubjects + [host];
      } else {
        httpRoutes := httpRoutes + [RouteForHost(host, proxy)];
      }
    }
    EmittedAll(parseIp, zone, routes, httpRoutes, httpsRoutes, tlsSubjects);
    config := Ok(Assemble(httpRoutes, httpsRoutes, tlsSubjects));
  }

  // ----- Dispatch: what a configuration does with a request -----

  /** The handlers a request for `host` runs: those of the matching routes in order, up to and
      including the first terminal one. */
  function Serve(routes: seq<HostRoute>, host: string): seq<Handler> {
    if routes == [] then []
    else if host !in routes[0].hosts then Serve(routes[1..], host)
    else if routes[0].terminal then routes[0].handlers
    else routes[0].handlers + Serve(routes[1..], host)
  }

  lemma ServeFirst(entry: HostRoute, rest: seq<HostRoute>, host: string)
    requires entry.terminal
    ensures Serve([entry] + rest, host) == if host in entry.hosts then entry.handlers else Serve(rest, host)
  {
    assert ([entry] + rest)[1..] == rest;
  }

  function ServeAt(config: Config, server: string, port: nat, host: string): seq<Handler> {
    if server in config.servers && "0.0.0.0:" + Decimal(port) in config.servers[server].listen
    then Serve(config.servers[server].routes, host) else []
  }

  function Dispatch(config: Config, port: nat, host: string): seq<Handler> {
    ServeAt(config, "http", port, host) + ServeAt(config, "https", port, host)
  }

  // ----- The direct meaning of a route list -----

  /** The fields of a route that a portable configuration carries, and all that Render reads. */
  datatype Portable = Portable(hostname: string, enabled: bool, publicMode: string, upstream: Upstream)

  function PortableOf(route: Route): Portable {
    Portable(route.hostname, route.enabled, route.publicMode, route.upstream)
  }

  /** What a route list asks for, by hostname. */
  function Intent(routes: seq<Route>): map<string, Portable> {
    map h | h in ByHost(routes) :: PortableOf(ByHost(routes)[h])
  }

  function Answer(parseIp: IpParser, wanted: Portable, port: nat): seq<Handler> {
    if !wanted.enabled then []
    else if wanted.publicMode == PUBLIC_HTTPS then
      if port == 80 then [Redirect(308)] else if port == 443 then [ProxyTo(parseIp, wanted.upstream)] else []
    else
      if port == 80 then [ProxyTo(parseIp, wanted.upstream)] else []
  }

  /** Direct routing: strip the zone from the host, look the rest up, answer by mode and port. */
  function Direct(parseIp: IpParser, zone: string, intent: map<string, Portable>, port: nat,
                  host: string): seq<Handler>
  {
    var k := |host| - |zone| - 1;
    if k >= 0 && host[k..] == "." + zone && host[..k] in intent then Answer(parseIp, intent[host[..k]], port) else []
  }

  /** A live configuration that routes every request as the intent asks. */
  ghost predicate Routes(parseIp: IpParser, zone: string, config: Config, intent: map<string, Portable>) {
    forall port: nat, host :: Dispatch(config, port, host) == Direct(parseIp, zone, intent, port, host)
  }

  // ----- Intents -----

  lemma IntentFinds(routes: seq<Route>)
    requires DistinctHosts(routes)
    ensures Intent(routes).Keys == Hosts(routes)
    ensures forall route :: route in routes ==> Intent(routes)[route.hostname] == PortableOf(route)
    ensures forall h :: h in Intent(routes)
              ==> exists route :: route in routes && route.hostname == h && Intent(routes)[h] == PortableOf(route)
  {
    ByHostFinds(routes);
  }

  /** Every route of `a` has a counterpart in `b` that asks for the same. */
  ghost predicate Covers(a: seq<Route>, b: seq<Route>) {
    forall x :: x in a ==> exists y :: y in b && PortableOf(y) == PortableOf(x)
  }

  lemma CoversIntent(a: seq<Route>, b: seq<Route>, h: string)
    requires DistinctHosts(a) && DistinctHosts(b) && Covers(a, b) && h in Intent(a)
    ensures h in Intent(b) && Intent(b)[h] == Intent(a)[h]
  {
    IntentFinds(a);
    IntentFinds(b);
    var x :| x in a && x.hostname == h && Intent(a)[h] == PortableOf(x);
    var y :| y in b && PortableOf(y) == PortableOf(x);
    assert y.hostname == PortableOf(y).hostname == h;
  }

  /** Lists asking for the same portable routes have the same intent. */
  lemma SameIntent(a: seq<Route>, b: seq<Route>)
    requires DistinctHosts(a) && DistinctHosts(b)
    requires Covers(a, b) && Covers(b, a)
    ensures Intent(a) == Intent(b)
  {
    forall h ensures h in Intent(a) <==> h in Intent(b) {
      if h in Intent(a) {
        CoversIntent(a, b, h);
      }
      if h in Intent(b) {
        CoversIntent(b, a, h);
      }
    }
    forall h | h in Intent(a) ensures Intent(a)[h] == Intent(b)[h] {
      CoversIntent(a, b, h);
    }
  }

  lemma RearrangedIntent(a: seq<Route>, b: seq<Route>)
    requires DistinctHosts(a) && DistinctHosts(b) && SameRoutes(a, b)
    ensures Intent(a) == Intent(b)
  {
    forall x | x in a ensures x in b && PortableOf(x) == PortableOf(x) {}
    SameIntent(a, b);
  }

  // ----- Rendering preserves meaning -----

  lemma {:induction false} HttpHit(parseIp: IpParser, zone: string, routes: seq<Route>, i: nat)
    requires DistinctHosts(routes) && i < |routes| && routes[i].enabled
    ensures Serve(HttpRoutes(parseIp, zone, routes), FullHost(routes[i].hostname, zone))
              == [HttpHandler(parseIp, routes[i])]
  {
    var entry := RouteForHost(FullHost(routes[0].hostname, zone), HttpHandler(parseIp, routes[0]));
    ServeFirst(entry, HttpRoutes(parseIp, zone, routes[1..]), FullHost(routes[i].hostname, zone));
    if i > 0 {
      FullHostInjective(routes[0].hostname, routes[i].hostname, zone);
      HttpHit(parseIp, zone, routes[1..], i - 1);
    }
  }

  lemma {:induction false} HttpMiss(parseIp: IpParser, zone: string, routes: seq<Route>, host: string)
    requires forall route :: route in routes && route.enabled ==> FullHost(route.hostname, zone) != host
    ensures Serve(HttpRoutes(parseIp, zone, routes), host) == []
  {
    if routes != [] {
      var entry := RouteForHost(FullHost(routes[0].hostname, zone), HttpHandler(parseIp, routes[0]));
      ServeFirst(entry, HttpRoutes(parseIp, zone, routes[1..]), host);
      HttpMiss(parseIp, zone, routes[1..], host);
    }
  }

  lemma {:induction false} HttpsHit(parseIp: IpParser, zone: string, routes: seq<Route>, i: nat)
    requires DistinctHosts(routes) && i < |routes| && ServesTls(routes[i])
    ensures Serve(HttpsRoutes(parseIp, zone, routes), FullHost(routes[i].hostname, zone))
              == [ProxyTo(parseIp, routes[i].upstream)]
  {
    var entry := RouteForHost(FullHost(routes[0].hostname, zone), ProxyTo(parseIp, routes[0].upstream));
    ServeFirst(entry, HttpsRoutes(parseIp, zone, routes[1..]), FullHost(routes[i].hostname, zone));
    if i > 0 {
      FullHostInjective(routes[0].hostname, routes[i].hostname, zone);
      HttpsHit(parseIp, zone, routes[1..], i - 1);
    }
  }

  lemma {:induction false} HttpsMiss(parseIp: IpParser, zone: string, routes: seq<Route>, host: string)
    requires forall route :: route in routes && ServesTls(route) ==> FullHost(route.hostname, zone) != host
    ensures Serve(HttpsRoutes(parseIp, zone, routes), host) == []
  {
    if routes != [] {
      var entry := RouteForHost(FullHost(routes[0].hostname, zone), ProxyTo(parseIp, routes[0].upstream));
      ServeFirst(entry, HttpsRoutes(parseIp, zone, routes[1..]), host);
      HttpsMiss(parseIp, zone, routes[1..], host);
    }
  }

  lemma ListenAddress(port: nat)
    ensures "0.0.0.0:" + Decimal(port) == "0.0.0.0:80" <==> port == 80
    ensures "0.0.0.0:" + Decimal(port) == "0.0.0.0:443" <==> port == 443
  {
    var prefix := "0.0.0.0:";
    assert (prefix + Decimal(port))[|prefix|..] == Decimal(port);
    assert "0.0.0.0:80"[|prefix|..] == "80" && "0.0.0.0:443"[|prefix|..] == "443";
    ParsePrinted(port);
    ParsedPorts();
    assert "0.0.0.0:80" == prefix + Decimal(80) && "0.0.0.0:443" == prefix + Decimal(443);
  }

  lemma ParsedPorts()
    ensures Decimal(80) == "80" && ParseDigits("80") == 80
    ensures Decimal(443) == "443" && ParseDigits("443") == 443
  {
    assert Decimal(8) == "8" && Decimal(4) == "4" && Decimal(44) == "44";
    ParsePrinted(80);
    ParsePrinted(443);
  }

  /** Each server of the output listens on its own port only. */
  lemma PortsOfServers(parseIp: IpParser, zone: string, routes: seq<Route>, port: nat, host: string)
    ensures var config := Rendered(parseIp, zone, routes);
            && ServeAt(config, "http", port, host)
                == (if port == 80 then Serve(HttpRoutes(parseIp, zone, routes), host) else [])
            && ServeAt(config, "https", port, host)
                == (if port == 443 then Serve(HttpsRoutes(parseIp, zone, routes), host) else [])
  {
    ListenAddress(port);
  }

  /** Strip and lookup agree with matching full hosts. */
  lemma HostLookup(zone: string, routes: seq<Route>, host: string)
    requires DistinctHosts(routes)
    ensures var k := |host| - |zone| - 1;
            forall route :: route in routes ==>
              (FullHost(route.hostname, zone) == host
               <==> k >= 0 && host[k..] == "." + zone && host[..k] == route.hostname)
  {
    forall route | route in routes && FullHost(route.hostname, zone) == host
      ensures var k := |host| - |zone| - 1;
              k >= 0 && host[k..] == "." + zone && host[..k] == route.hostname
    {
    }
    var k := |host| - |zone| - 1;
    if k >= 0 && host[k..] == "." + zone {
      assert host == host[..k] + host[k..];
      assert host == FullHost(host[..k], zone);
    }
  }

  /** The renderer preserves meaning: on every port, for every host. */
  lemma RenderPreservesMeaning(parseIp: IpParser, zone: string, routes: seq<Route>)
    requires DistinctHosts(routes)
    ensures Routes(parseIp, zone, Rendered(parseIp, zone, routes), Intent(routes))
  {
    hide Serve, HttpRoutes, HttpsRoutes, Answer, Intent, Rendered, FullHost;
    var config := Rendered(parseIp, zone, routes);
    forall port: nat, host
      ensures Dispatch(config, port, host) == Direct(parseIp, zone, Intent(routes), port, host)
    {
      PortsOfServers(parseIp, zone, routes, port, host);
      HostLookup(zone, routes, host);
      IntentFinds(routes);
      var k := |host| - |zone| - 1;
      if k >= 0 && host[k..] == "." + zone && host[..k] in Intent(routes) {
        var route :| route in routes && route.hostname == host[..k];
        var i :| 0 <= i < |routes| && routes[i] == route;
        HitAnswer(parseIp, zone, routes, i, port, host);
      } else {
        HttpMiss(parseIp, zone, routes, host);
        HttpsMiss(parseIp, zone, routes, host);
      }
    }
  }

  lemma HitAnswer(parseIp: IpParser, zone: string, routes: seq<Route>, i: nat, port: nat, host: string)
    requires DistinctHosts(routes) && i < |routes| && FullHost(routes[i].hostname, zone) == host
    ensures Dispatch(Rendered(parseIp, zone, routes), port, host) == Answer(parseIp, PortableOf(routes[i]), port)
  {
    PortsOfServers(parseIp, zone, routes, port, host);
    forall route | route in routes && route != routes[i] ensures FullHost(route.hostname, zone) != host {
      FullHostInjective(route.hostname, routes[i].hostname, zone);
    }
    if routes[i].enabled {
      HttpHit(parseIp, zone, routes, i);
    } else {
      HttpMiss(parseIp, zone, routes, host);
    }
    if ServesTls(routes[i]) {
      HttpsHit(parseIp, zone, routes, i);
    } else {
      HttpsMiss(parseIp, zone, routes, host);
    }
  }

  /** Any rearrangement of the list dispatches identically. */
  lemma RearrangementDispatchesAlike(parseIp: IpParser, zone: string, a: seq<Route>, b: seq<Route>, port: nat,
                                     host: string)
    requires DistinctHosts(a) && DistinctHosts(b) && SameRoutes(a, b)
    ensures Dispatch(Rendered(parseIp, zone, a), port, host) == Dispatch(Rendered(parseIp, zone, b), port, host)
  {
    RenderPreservesMeaning(parseIp, zone, a);
    RenderPreservesMeaning(parseIp, zone, b);
    RearrangedIntent(a, b);
  }

  /** A Location template with the request's host and URI put in. */
  function Expand(template: string, host: string, uri: string): string {
    if template == "" then ""
    else if |template| >= 19 && template[..19] == "{http.request.host}" then host + Expand(template[19..], host, uri)
    else if |template| >= 18 && template[..18] == "{http.request.uri}" then uri + Expand(template[18..], host, uri)
    else [template[0]] + Expand(template[1..], host, uri)
  }

  lemma {:induction false} ExpandPlain(plain: string, rest: string, host: string, uri: string)
    requires '{' !in plain
    ensures Expand(plain + rest, host, uri) == plain + Expand(rest, host, uri)
  {
    if plain == "" {
      assert plain + rest == rest;
    } else {
      var template := plain + rest;
      assert template[0] == plain[0] && template[1..] == plain[1..] + rest;
      assert |template| >= 19 ==> template[..19][0] != '{';
      assert |template| >= 18 ==> template[..18][0] != '{';
      ExpandPlain(plain[1..], rest, host, uri);
    }
  }

  lemma ExpandUri(host: string, uri: string)
    ensures Expand("{http.request.uri}", host, uri) == uri
  {
    var u := "{http.request.uri}";
    assert |u| == 18 && u[..18] == u && u[18..] == "";
    assert Expand("", host, uri) == "";
  }

  lemma ExpandHost(rest: string, host: string, uri: string)
    ensures Expand("{http.request.host}" + rest, host, uri) == host + Expand(rest, host, uri)
  {
    var h := "{http.request.host}";
    assert |h| == 19 && (h + rest)[..19] == h && (h + rest)[19..] == rest;
  }

  /** The redirect keeps the request's method, and names its own host and URI over https. */
  lemma RedirectExpands(host: string, uri: string)
    ensures Redirect(308).StaticResponse? && Redirect(308).status == 308
    ensures Expand(Redirect(308).location, host, uri) == "https://" + host + uri
  {
    hide Expand;
    var rest := HOST_PLACEHOLDER + URI_PLACEHOLDER;
    RedirectLocation(rest);
    ExpandPlain("https://", rest, host, uri);
    ExpandHost(URI_PLACEHOLDER, host, uri);
    ExpandUri(host, uri);
    assert "https://" + (host + uri) == "https://" + host + uri;
  }

  const HOST_PLACEHOLDER: string := "{http.request.host}"
  const URI_PLACEHOLDER: string := "{http.request.uri}"

  lemma RedirectLocation(rest: string)
    requires rest == HOST_PLACEHOLDER + URI_PLACEHOLDER
    ensures Redirect(308) == StaticResponse(308, "https://" + rest)
  {
    Reassociate("https://", HOST_PLACEHOLDER, URI_PLACEHOLDER);
  }

  /** A redirect chain has at most one hop: whatever answers without a proxy answers on port 80 with a
      308 to the same host and URI over https, and there the route's own proxy answers. */
  lemma RedirectHasOneHop(parseIp: IpParser, zone: string, routes: seq<Route>, port: nat, host: string,
                          answer: Handler, uri: string)
    requires DistinctHosts(routes)
    requires answer in Dispatch(Rendered(parseIp, zone, routes), port, host) && answer.StaticResponse?
    ensures port == 80 && answer.status == 308
    ensures Expand(answer.location, host, uri) == "https://" + host + uri
    ensures exists route :: route in routes && ServesTls(route) && FullHost(route.hostname, zone) == host
              && Dispatch(Rendered(parseIp, zone, routes), 443, host) == [ProxyTo(parseIp, route.upstream)]
  {
    hide Rendered, Dispatch, FullHost, Intent, ProxyTo, Expand, Redirect;
    RenderPreservesMeaning(parseIp, zone, routes);
    IntentFinds(routes);
    HostLookup(zone, routes, host);
    ProxyIsNoRedirect(parseIp);
    RedirectExpands(host, uri);
  }

  lemma ProxyIsNoRedirect(parseIp: IpParser)
    ensures forall upstream: Upstream :: ProxyTo(parseIp, upstream).ReverseProxy?
  {
  }

  /** A request for an enabled route reaches one proxy, which speaks TLS to the upstream exactly when
      its scheme is https, and skips verification exactly when the upstream asks for that. */
  lemma ProxySpeaksUpstream(parseIp: IpParser, zone: string, routes: seq<Route>, route: Route)
    requires DistinctHosts(routes) && route in routes && route.enabled
    ensures var port := if route.publicMode == "https" then 443 else 80;
            var answers := Dispatch(Rendered(parseIp, zone, routes), port, FullHost(route.hostname, zone));
            && |answers| == 1 && answers[0].ReverseProxy?
            && answers[0].dial == DialAddress(parseIp, route.upstream)
            && (answers[0].transport.TlsTransport? <==> route.upstream.scheme == "https")
            && (answers[0].transport.TlsTransport? ==>
                  answers[0].transport.insecureSkipVerify == route.upstream.skipTlsVerify)
  {
    hide Rendered, Dispatch, FullHost, DialAddress;
    var i :| 0 <= i < |routes| && routes[i] == route;
    HitAnswer(parseIp, zone, routes, i, if route.publicMode == "https" then 443 else 80,
      FullHost(route.hostname, zone));
  }

  lemma {:induction false} SubjectMembers(zone: string, routes: seq<Route>, host: string)
    ensures host in TlsSubjects(zone, routes) <==>
              exists route :: route in routes && ServesTls(route) && FullHost(route.hostname, zone) == host
    ensures |TlsSubjects(zone, routes)| > 0 <==> exists route :: route in routes && ServesTls(route)
  {
    if routes != [] {
      SubjectMembers(zone, routes[1..], host);
      assert routes == [routes[0]] + routes[1..];
    }
  }

  /** A certificate subject is issued for exactly the hosts something answers for on port 443. */
  lemma SubjectsAreServedHosts(parseIp: IpParser, zone: string, routes: seq<Route>, host: string)
    requires DistinctHosts(routes)
    ensures var config := Rendered(parseIp, zone, routes);
            Dispatch(config, 443, host) != [] <==> config.tlsSubjects.Some? && host in config.tlsSubjects.value
  {
    hide Serve, HttpRoutes, HttpsRoutes, TlsSubjects, ServeAt, FullHost, ServesTls;
    PortsOfServers(parseIp, zone, routes, 443, host);
    SubjectMembers(zone, routes, host);
    HttpsAndSubjects(parseIp, zone, routes);
    if exists route :: route in routes && ServesTls(route) && FullHost(route.hostname, zone) == host {
      var route :| route in routes && ServesTls(route) && FullHost(route.hostname, zone) == host;
      var i :| 0 <= i < |routes| && routes[i] == route;
      HttpsHit(parseIp, zone, routes, i);
    } else {
      HttpsMiss(parseIp, zone, routes, host);
    }
  }

  lemma {:induction false} HttpsAndSubjects(parseIp: IpParser, zone: string, routes: seq<Route>)
    ensures |HttpsRoutes(parseIp, zone, routes)| == |TlsSubjects(zone, routes)|
  {
    if routes != [] {
      HttpsAndSubjects(parseIp, zone, routes[1..]);
    }
  }
}
