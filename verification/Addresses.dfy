/** The address the health probe dials (internal/controller/health.go) against the address the
    proxy dials (internal/caddy/config.go). */
module Addresses {
  import opened Text
  import opened Domain
  import opened Caddy

  /** A loopback spelling, bracketed or not, stands for the Docker host. */
  function Alias(host: string): string {
    if host == "localhost" || host == "127.0.0.1" || host == "::1" then DOCKER_HOST else host
  }

  /** healthAddress: the address, and the host again as TLS server name. */
  function HealthAddress(upstream: Upstream): (string, string) {
    var host := Alias(Trim(upstream.host, BRACKETS));
    (JoinHostPort(host, PrintInt(upstream.port)), host)
  }

  predicate HasBracket(host: string) {
    '[' in host || ']' in host
  }

  /** Free of brackets, or one balanced pair around an address with a colon (section 3.2.2 of RFC 3986). */
  predicate IsWellBracketed(host: string) {
    var inner := Trim(host, BRACKETS);
    !HasBracket(host) || (host == "[" + inner + "]" && ':' in inner)
  }

  lemma NoBracketTrim(host: string)
    requires !HasBracket(host)
    ensures Trim(host, BRACKETS) == host
  {
    TrimFixpoint(host, BRACKETS);
  }

  lemma IpHasNoBracket(parseIp: IpParser, s: string)
    requires parseIp(s)
    ensures s != "" && !HasBracket(s) && s != DOCKER_HOST && s != "localhost"
  {
    assert !IsIpChar(DOCKER_HOST[1]) && !IsIpChar("localhost"[1]);
  }

  lemma DnsNameHasNoColonOrBracket(host: string)
    requires IsDnsName(host)
    ensures ':' !in host && !HasBracket(host)
  {
    DnsNameChars(host);
  }

  lemma DockerHostIsNoIp(parseIp: IpParser)
    ensures !parseIp(DOCKER_HOST) && ':' !in DOCKER_HOST
  {
    if parseIp(DOCKER_HOST) {
      IpHasNoBracket(parseIp, DOCKER_HOST);
    }
  }

  /** What validation leaves of an upstream host: either an unbracketed IP or DNS name, or an IP
      under some brackets. */
  lemma AcceptedHost(parseIp: IpParser, upstream: Upstream)
    requires ValidateUpstream(parseIp, upstream).None?
    ensures var inner := Trim(upstream.host, BRACKETS);
            inner != "" && !HasBracket(inner) &&
            if HasBracket(upstream.host)
            then parseIp(inner) && inner != upstream.host
            else inner == upstream.host && (parseIp(inner) || (IsDnsName(inner) && ':' !in inner))
  {
    var host := upstream.host;
    var inner := Trim(host, BRACKETS);
    if IsDnsName(host) {
      DnsNameHasNoColonOrBracket(host);
    }
    if !HasBracket(host) {
      NoBracketTrim(host);
    } else {
      IpHasNoBracket(parseIp, inner);
    }
  }

  lemma AliasIsPlain(host: string)
    requires host != "" && !HasBracket(host)
    ensures Alias(host) != "" && !HasBracket(Alias(host))
  {
    assert !HasBracket(DOCKER_HOST) && |DOCKER_HOST| > 0;
  }

  lemma SamePortSuffix(a: string, b: string, port: string)
    ensures a + ":" + port == b + ":" + port <==> a == b
  {
    if a + ":" + port == b + ":" + port {
      assert a == (a + ":" + port)[..|a + ":" + port| - |port| - 1];
      assert b == (b + ":" + port)[..|b + ":" + port| - |port| - 1];
    }
  }

  /** Probe and proxy dial the same place exactly when the accepted host is well bracketed. */
  lemma ProbeDialsWhatProxyDials(parseIp: IpParser, upstream: Upstream)
    requires ValidateUpstream(parseIp, upstream).None?
    ensures DialAddress(parseIp, upstream) == HealthAddress(upstream).0 <==> IsWellBracketed(upstream.host)
  {
    var host, port := upstream.host, PrintInt(upstream.port);
    var inner := Trim(host, BRACKETS);
    AcceptedHost(parseIp, upstream);
    DockerHostIsNoIp(parseIp);
    if HasBracket(host) {
      IpHasNoBracket(parseIp, inner);
      if parseIp(host) {
        IpHasNoBracket(parseIp, host);
      }
      BracketedAddresses(parseIp, upstream);
    } else {
      assert host != "[::1]";
      if parseIp(host) {
        IpHasNoBracket(parseIp, host);
      }
    }
  }

  /** The bracketed case, on the printed hosts alone. */
  lemma BracketedHosts(host: string, inner: string)
    requires HasBracket(host) && !HasBracket(inner) && inner == Trim(host, BRACKETS) && inner != "localhost"
    ensures var probed := Alias(inner);
            DialHost(host) == (if ':' in probed then "[" + probed + "]" else probed)
            <==> host == "[" + inner + "]" && ':' in inner
  {
    assert !HasBracket(DOCKER_HOST) && ':' !in DOCKER_HOST;
    assert !HasBracket("localhost") && !HasBracket("127.0.0.1") && !HasBracket("::1");
    assert "[::1]" == ['['] + "::1" + [']'];
    TrimWrapped('[', "::1", ']', BRACKETS);
    assert ':' in "::1" && ':' !in "127.0.0.1";
    if host == "[::1]" {
      assert inner == "::1";
    } else if inner == "::1" {
      assert Alias(inner) == DOCKER_HOST;
    }
  }

  lemma BracketedAddresses(parseIp: IpParser, upstream: Upstream)
    requires var inner := Trim(upstream.host, BRACKETS);
             HasBracket(upstream.host) && !parseIp(DialHost(upstream.host)) && !HasBracket(inner)
             && inner != "localhost"
    ensures DialAddress(parseIp, upstream) == HealthAddress(upstream).0 <==> IsWellBracketed(upstream.host)
  {
    var host, port := upstream.host, PrintInt(upstream.port);
    var inner := Trim(host, BRACKETS);
    var dialled := DialHost(host);
    assert DialAddress(parseIp, upstream) == dialled + ":" + port;
    var probed := Alias(inner);
    var printed := if ':' in probed then "[" + probed + "]" else probed;
    assert HealthAddress(upstream).0 == printed + ":" + port;
    SamePortSuffix(dialled, printed, port);
    BracketedHosts(host, inner);
  }

  /** Outside that shape they differ: a bracketed IPv4 address is accepted and dialled in two ways. */
  lemma BracketedIpv4Differs(parseIp: IpParser)
    requires parseIp("127.0.0.1")
    ensures exists upstream :: ValidateUpstream(parseIp, upstream).None?
              && DialAddress(parseIp, upstream) != HealthAddress(upstream).0
  {
    var inner := "127.0.0.1";
    var host := ['['] + inner + [']'];
    TrimWrapped('[', inner, ']', BRACKETS);
    assert ':' !in inner && host[0] == '[';
    assert !HasUrlChar(host);
    var upstream := Upstream("http", host, 80, false);
    assert ValidateUpstream(parseIp, upstream).None?;
    ProbeDialsWhatProxyDials(parseIp, upstream);
  }

  /** Parsing a dialled address at its last colon gives back the port and, under any brackets,
      the accepted host up to the loopback aliases. */
  lemma AddressParsesBack(parseIp: IpParser, upstream: Upstream)
    requires ValidateUpstream(parseIp, upstream).None? && IsWellBracketed(upstream.host)
    ensures var address := DialAddress(parseIp, upstream);
            var port := AfterLast(address, ':');
            && IsDigits(port) && ParseDigits(port) == upstream.port
            && |address| > |port|
            && Trim(address[..|address| - |port| - 1], BRACKETS) == Alias(Trim(upstream.host, BRACKETS))
  {
    hide Trim, ValidateUpstream, IsWellBracketed, DialAddress, Alias, HasBracket, JoinHostPort, AfterLast, Decimal;
    hide IsDigits, ParseDigits;
    AcceptedPort(parseIp, upstream);
    DialledForm(parseIp, upstream);
    var host := Alias(Trim(upstream.host, BRACKETS));
    JoinedParsesBack(host, upstream.port);
    assert PrintInt(upstream.port) == Decimal(upstream.port);
  }

  /** The server name a TLS probe asks for is the host of the address it dials, for every accepted
      upstream. */
  lemma ProbeNamesItsHost(parseIp: IpParser, upstream: Upstream)
    requires ValidateUpstream(parseIp, upstream).None?
    ensures var (address, name) := HealthAddress(upstream);
            var port := AfterLast(address, ':');
            && port == Decimal(upstream.port) && |address| > |port|
            && Trim(address[..|address| - |port| - 1], BRACKETS) == name
  {
    hide Trim, ValidateUpstream, Alias, HasBracket, JoinHostPort, AfterLast, Decimal, IsDigits, ParseDigits, IsDnsName;
    AcceptedPort(parseIp, upstream);
    AcceptedHost(parseIp, upstream);
    AliasIsPlain(Trim(upstream.host, BRACKETS));
    JoinedParsesBack(Alias(Trim(upstream.host, BRACKETS)), upstream.port);
    assert PrintInt(upstream.port) == Decimal(upstream.port);
  }

  /** The loopback spellings, bare or bracketed, dial the Docker host. */
  lemma LoopbackDialsDockerHost(parseIp: IpParser, upstream: Upstream)
    requires upstream.host == "localhost" || upstream.host == "127.0.0.1" || upstream.host == "::1"
             || upstream.host == "[::1]"
    ensures DialAddress(parseIp, upstream) == "host.docker.internal" + ":" + PrintInt(upstream.port)
    ensures HealthAddress(upstream) == ("host.docker.internal" + ":" + PrintInt(upstream.port), "host.docker.internal")
  {
    hide PrintInt, Trim;
    DockerHostIsNoIp(parseIp);
    assert !HasBracket("localhost") && !HasBracket("127.0.0.1") && !HasBracket("::1");
    if upstream.host == "[::1]" {
      assert "[::1]" == ['['] + "::1" + [']'];
      TrimWrapped('[', "::1", ']', BRACKETS);
    } else {
      NoBracketTrim(upstream.host);
    }
  }

  /** Every other accepted, well bracketed host is dialled as it is, on its own port. */
  lemma OthersDialThemselves(parseIp: IpParser, upstream: Upstream)
    requires ValidateUpstream(parseIp, upstream).None? && IsWellBracketed(upstream.host)
    requires upstream.host != "localhost" && upstream.host != "127.0.0.1" && upstream.host != "::1"
             && upstream.host != "[::1]"
    ensures var address := DialAddress(parseIp, upstream);
            var port := AfterLast(address, ':');
            && IsDigits(port) && ParseDigits(port) == upstream.port && |address| > |port|
            && Trim(address[..|address| - |port| - 1], BRACKETS) == Trim(upstream.host, BRACKETS)
  {
    hide Trim, ValidateUpstream, DialAddress, JoinHostPort, AfterLast, Decimal, IsDigits, ParseDigits;
    AddressParsesBack(parseIp, upstream);
    if !HasBracket(upstream.host) {
      NoBracketTrim(upstream.host);
    } else {
      BracketedIsNoLoopback(upstream.host, Trim(upstream.host, BRACKETS));
    }
  }

  lemma BracketedIsNoLoopback(host: string, inner: string)
    requires host == "[" + inner + "]" && ':' in inner && host != "[::1]"
    ensures Alias(inner) == inner
  {
    assert ':' !in "localhost" && ':' !in "127.0.0.1";
    assert "[" + "::1" + "]" == "[::1]";
  }

  lemma AcceptedPort(parseIp: IpParser, upstream: Upstream)
    requires ValidateUpstream(parseIp, upstream).None?
    ensures 1 <= upstream.port <= 65535
  {
  }

  lemma DialledForm(parseIp: IpParser, upstream: Upstream)
    requires ValidateUpstream(parseIp, upstream).None? && IsWellBracketed(upstream.host)
    ensures var host := Alias(Trim(upstream.host, BRACKETS));
            && host != "" && !HasBracket(host)
            && DialAddress(parseIp, upstream) == JoinHostPort(host, PrintInt(upstream.port))
  {
    ProbeDialsWhatProxyDials(parseIp, upstream);
    AcceptedHost(parseIp, upstream);
    AliasIsPlain(Trim(upstream.host, BRACKETS));
  }

  lemma JoinedParsesBack(host: string, port: nat)
    requires host != "" && !HasBracket(host)
    ensures var address := JoinHostPort(host, Decimal(port));
            var tail := AfterLast(address, ':');
            && tail == Decimal(port) && ParseDigits(tail) == port
            && |address| > |tail|
            && Trim(address[..|address| - |tail| - 1], BRACKETS) == host
  {
    hide Trim, AfterLast, Decimal, ParseDigits;
    var digits := Decimal(port);
    var printed := if ':' in host then "[" + host + "]" else host;
    var address := JoinHostPort(host, digits);
    assert address == printed + [':'] + digits;
    AfterLastOf(printed, ':', digits);
    ParsePrinted(port);
    assert address[..|address| - |digits| - 1] == printed;
    if ':' in host {
      TrimWrapped('[', host, ']', BRACKETS);
    } else {
      NoBracketTrim(host);
    }
  }
}
