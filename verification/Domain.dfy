/** Routes and their validators: internal/domain/route.go. */
module Domain {
  import opened Results
  import opened Text

  type Time = int

  const PUBLIC_HTTP: string := "http"
  const PUBLIC_HTTPS: string := "https"

  datatype HealthStatus = HealthUnknown | HealthReachable | HealthUnreachable

  datatype Upstream = Upstream(scheme: string, host: string, port: int, skipTlsVerify: bool)

  datatype Route = Route(
    id: string,
    hostname: string,
    enabled: bool,
    publicMode: string,
    upstream: Upstream,
    revision: int,
    createdAt: Time,
    updatedAt: Time,
    health: HealthStatus)

  datatype RouteInput = RouteInput(hostname: string, publicMode: string, upstream: Upstream)

  /** What one call of NewRoute draws from the outside: a random id and the clock. */
  datatype Stamp = Stamp(id: string, at: Time)

  /** Every error the controller reports, across its packages. */
  datatype Error =
    | HostnameNotRelative
    | HostnameLabels
    | PublicModeInvalid
    | ZoneNotUnderTest
    | ZoneLabels
    | SchemeInvalid
    | UpstreamHostIsUrl
    | UpstreamHostInvalid
    | PortOutOfRange
    | SkipVerifyWithoutTls
    | InRoute(hostname: string, cause: Error)
    | DuplicateImportedHostname(hostname: string)
    | ConfigVersionInvalid
    | ImportModeInvalid
    | ExportedZone(cause: Error)
    | ImportMissingOrExpired
    | RoutesChangedAfterPreview
    | HostnameConflict
    | RevisionConflict
    | NotFound
    | SqlFailure
    | CaddyRejected

  // ----- DNS names -----

  predicate IsLdh(c: char) {
    'a' <= c <= 'z' || '0' <= c <= '9' || c == '-'
  }

  predicate IsLabel(part: string) {
    && part != ""
    && |part| <= 63
    && part[0] != '-'
    && part[|part| - 1] != '-'
    && forall k :: 0 <= k < |part| ==> IsLdh(part[k])
  }

  predicate AllLabels(labels: seq<string>) {
    forall i {:trigger IsLabel(labels[i])} :: 0 <= i < |labels| ==> IsLabel(labels[i])
  }

  predicate IsDnsName(name: string) {
    AllLabels(Split(name, '.'))
  }

  /** validDNSName: the nested scan with its early exits. */
  method ValidDnsName(name: string) returns (ok: bool)
    ensures ok <==> IsDnsName(name)
  {
    var labels := Split(name, '.');
    for i := 0 to |labels|
      invariant AllLabels(labels[..i])
    {
      var part := labels[i];
      if part == "" || |part| > 63 || part[0] == '-' || part[|part| - 1] == '-' {
        assert !IsLabel(labels[i]);
        return false;
      }
      for k := 0 to |part|
        invariant forall j :: 0 <= j < k ==> IsLdh(part[j])
      {
        var c := part[k];
        if (c < 'a' || c > 'z') && (c < '0' || c > '9') && c != '-' {
          assert !IsLdh(part[k]) && !IsLabel(labels[i]);
          return false;
        }
      }
    }
    assert labels[..|labels|] == labels;
    return true;
  }

  /** The accepted names are exactly the dot-joined sequences of labels
      (section 2.3.1 of RFC 1035, leading digits per section 2.1 of RFC 1123). */
  lemma DnsNameGrammar(name: string)
    ensures IsDnsName(name) <==> exists labels :: |labels| >= 1 && AllLabels(labels) && name == Join(labels, '.')
  {
    JoinSplit(name, '.');
    forall labels | |labels| >= 1 && AllLabels(labels) && name == Join(labels, '.')
      ensures IsDnsName(name)
    {
      forall i | 0 <= i < |labels| ensures '.' !in labels[i] {
        assert IsLabel(labels[i]);
        assert !IsLdh('.');
      }
      SplitJoin(labels, '.');
    }
  }

  lemma DnsNameComposition(a: string, b: string)
    ensures IsDnsName(a + "." + b) <==> IsDnsName(a) && IsDnsName(b)
  {
    var p, q := Split(a, '.'), Split(b, '.');
    SplitConcat(a, b, '.');
    assert Split(a + "." + b, '.') == p + q;
    if AllLabels(p + q) {
      forall i | 0 <= i < |p| ensures IsLabel(p[i]) { assert (p + q)[i] == p[i]; }
      forall i | 0 <= i < |q| ensures IsLabel(q[i]) { assert (p + q)[|p| + i] == q[i]; }
    }
  }

  /** Every character of an accepted name is a dot or a label character. */
  lemma {:induction false} DnsNameChars(name: string)
    requires IsDnsName(name)
    ensures forall k :: 0 <= k < |name| ==> name[k] == '.' || IsLdh(name[k])
  {
    JoinSplit(name, '.');
    JoinedChars(Split(name, '.'));
  }

  lemma {:induction false} JoinedChars(labels: seq<string>)
    requires |labels| >= 1 && AllLabels(labels)
    ensures forall k :: 0 <= k < |Join(labels, '.')| ==> Join(labels, '.')[k] == '.' || IsLdh(Join(labels, '.')[k])
  {
    assert IsLabel(labels[0]);
    if |labels| > 1 {
      assert AllLabels(labels[1..]);
      JoinedChars(labels[1..]);
    }
  }

  // ----- Validators -----

  function ValidateRelativeHostname(hostname: string): Option<Error> {
    if hostname == "" || HasSuffix(hostname, ".test") then Some(HostnameNotRelative)
    else if |hostname| > 253 || !IsDnsName(hostname) then Some(HostnameLabels)
    else None
  }

  function ValidateZone(zone: string): Option<Error> {
    if zone != ToLower(zone) || HasSuffix(zone, ".") || !HasSuffix(zone, ".test") || zone == ".test" then
      Some(ZoneNotUnderTest)
    else if !IsDnsName(zone) then Some(ZoneLabels)
    else None
  }

  predicate IsIpChar(c: char) {
    '0' <= c <= '9' || 'a' <= c <= 'f' || 'A' <= c <= 'F' || c == '.' || c == ':'
  }

  /** What is assumed of net.ParseIP: it accepts only non-empty texts of hexadecimal digits, dots
      and colons. */
  ghost predicate ParsesIps(accepts: string -> bool) {
    forall s :: accepts(s) ==> s != "" && forall k :: 0 <= k < |s| ==> IsIpChar(s[k])
  }

  type IpParser = f: string -> bool | ParsesIps(f) witness _ => false

  const BRACKETS: set<char> := {'[', ']'}

  /** strings.ContainsAny with the characters that give away a URL. */
  predicate HasUrlChar(s: string) {
    exists k {:trigger IsUrlChar(s[k])} :: 0 <= k < |s| && IsUrlChar(s[k])
  }

  predicate IsUrlChar(c: char) {
    c == '/' || c == '?' || c == '#' || c == '@' || c == ' '
  }

  function ValidateUpstream(parseIp: IpParser, upstream: Upstream): Option<Error> {
    if upstream.scheme != "http" && upstream.scheme != "https" then Some(SchemeInvalid)
    else if upstream.host == "" || HasUrlChar(upstream.host) then Some(UpstreamHostIsUrl)
    else if !parseIp(Trim(upstream.host, BRACKETS)) && !IsDnsName(upstream.host) then Some(UpstreamHostInvalid)
    else if upstream.port < 1 || upstream.port > 65535 then Some(PortOutOfRange)
    else if upstream.skipTlsVerify && upstream.scheme != "https" then Some(SkipVerifyWithoutTls)
    else None
  }

  // ----- NewRoute -----

  /** The input NewRoute goes on with: names trimmed and lower-cased, the upstream host only trimmed. */
  function Normalise(input: RouteInput): RouteInput {
    RouteInput(
      ToLower(TrimSpace(input.hostname)),
      input.publicMode,
      input.upstream.(scheme := ToLower(TrimSpace(input.upstream.scheme)), host := TrimSpace(input.upstream.host)))
  }

  function Validate(parseIp: IpParser, input: RouteInput): Option<Error> {
    var hostname := ValidateRelativeHostname(input.hostname);
    if hostname.Some? then hostname
    else if input.publicMode != PUBLIC_HTTP && input.publicMode != PUBLIC_HTTPS then Some(PublicModeInvalid)
    else ValidateUpstream(parseIp, input.upstream)
  }

  function Admit(parseIp: IpParser, input: RouteInput, stamp: Stamp): Result<Route, Error> {
    var input := Normalise(input);
    match Validate(parseIp, input)
    case Some(error) => Err(error)
    case None => Ok(Route(stamp.id, input.hostname, true, input.publicMode, input.upstream, 1, stamp.at, stamp.at,
        HealthUnknown))
  }

  /** NewRoute, overwriting the fields of its copy of the input. */
  method NewRoute(parseIp: IpParser, given: RouteInput, stamp: Stamp) returns (route: Result<Route, Error>)
    ensures route == Admit(parseIp, given, stamp)
  {
    var input := given;
    input := input.(hostname := ToLower(TrimSpace(input.hostname)));
    input := input.(upstream := input.upstream.(scheme := ToLower(TrimSpace(input.upstream.scheme))));
    input := input.(upstream := input.upstream.(host := TrimSpace(input.upstream.host)));
    var error := ValidateRelativeHostname(input.hostname);
    if error.Some? {
      return Err(error.value);
    }
    if input.publicMode != PUBLIC_HTTP && input.publicMode != PUBLIC_HTTPS {
      return Err(PublicModeInvalid);
    }
    error := ValidateUpstream(parseIp, input.upstream);
    if error.Some? {
      return Err(error.value);
    }
    return Ok(Route(stamp.id, input.hostname, true, input.publicMode, input.upstream, 1, stamp.at, stamp.at,
        HealthUnknown));
  }

  // ----- What NewRoute accepts -----

  /** The inputs that ask for a route: a relative name of labels, a public mode, and an upstream whose
      host is a name or an address, possibly under brackets. */
  predicate IsAcceptable(parseIp: IpParser, input: RouteInput) {
    var hostname := ToLower(TrimSpace(input.hostname));
    var scheme := ToLower(TrimSpace(input.upstream.scheme));
    var host := TrimSpace(input.upstream.host);
    && IsDnsName(hostname) && |hostname| <= 253 && !HasSuffix(hostname, ".test")
    && (input.publicMode == "http" || input.publicMode == "https")
    && (scheme == "http" || scheme == "https")
    && (IsDnsName(host) || parseIp(Trim(host, {'[', ']'})))
    && (forall k :: 0 <= k < |host| ==> host[k] !in "/?#@ ")
    && 1 <= input.upstream.port <= 65535
    && (input.upstream.skipTlsVerify ==> scheme == "https")
  }

  lemma NoName()
    ensures !IsDnsName("")
  {
    assert Split("", '.')[0] == "";
    assert !IsLabel(Split("", '.')[0]);
  }

  lemma UrlChars(host: string)
    ensures HasUrlChar(host) <==> exists k :: 0 <= k < |host| && host[k] in "/?#@ "
  {
    forall k | 0 <= k < |host| ensures IsUrlChar(host[k]) <==> host[k] in "/?#@ " {
      UrlChar(host[k]);
    }
  }

  lemma UrlChar(c: char)
    ensures IsUrlChar(c) <==> c in "/?#@ "
  {
    var chars := "/?#@ ";
    assert chars[0] == '/' && chars[1] == '?' && chars[2] == '#' && chars[3] == '@' && chars[4] == ' ';
  }

  lemma NothingToParse(parseIp: IpParser)
    ensures !parseIp(Trim("", BRACKETS))
  {
    assert Trim("", BRACKETS) == "";
  }

  /** NewRoute accepts exactly the acceptable inputs. */
  lemma AdmitsExactly(parseIp: IpParser, input: RouteInput, stamp: Stamp)
    ensures Admit(parseIp, input, stamp).Ok? <==> IsAcceptable(parseIp, input)
  {
    hide TrimSpace, ToLower, IsDnsName, Trim, HasUrlChar;
    NoName();
    UrlChars(TrimSpace(input.upstream.host));
    NothingToParse(parseIp);
  }

  /** The error names the first condition that fails, in the order hostname, mode, scheme, host, port,
      certificate switch. */
  lemma AdmitErrors(parseIp: IpParser, input: RouteInput, stamp: Stamp)
    requires Admit(parseIp, input, stamp).Err?
    ensures var error := Admit(parseIp, input, stamp).error;
            var hostname := ToLower(TrimSpace(input.hostname));
            var scheme := ToLower(TrimSpace(input.upstream.scheme));
            var host := TrimSpace(input.upstream.host);
            if hostname == "" || HasSuffix(hostname, ".test") then error == HostnameNotRelative
            else if |hostname| > 253 || !IsDnsName(hostname) then error == HostnameLabels
            else if input.publicMode != "http" && input.publicMode != "https" then error == PublicModeInvalid
            else if scheme != "http" && scheme != "https" then error == SchemeInvalid
            else if host == "" || exists k :: 0 <= k < |host| && host[k] in "/?#@ " then error == UpstreamHostIsUrl
            else if !IsDnsName(host) && !parseIp(Trim(host, {'[', ']'})) then error == UpstreamHostInvalid
            else if !(1 <= input.upstream.port <= 65535) then error == PortOutOfRange
            else error == SkipVerifyWithoutTls && input.upstream.skipTlsVerify && scheme == "http"
  {
    hide TrimSpace, ToLower, IsDnsName, Trim, HasUrlChar;
    UrlChars(TrimSpace(input.upstream.host));
  }

  /** The accepted zones are exactly the names under "test": two labels or more, the last of them "test". */
  lemma ZoneGrammar(zone: string)
    ensures ValidateZone(zone).None?
            <==> exists labels :: |labels| >= 2 && AllLabels(labels) && labels[|labels| - 1] == "test"
                                  && zone == Join(labels, '.')
  {
    if ValidateZone(zone).None? {
      ZoneHasLabels(zone);
    }
    if labels :| |labels| >= 2 && AllLabels(labels) && labels[|labels| - 1] == "test" && zone == Join(labels, '.') {
      LabelsMakeZone(labels);
    }
  }

  lemma ZoneHasLabels(zone: string)
    requires ValidateZone(zone).None?
    ensures exists labels :: |labels| >= 2 && AllLabels(labels) && labels[|labels| - 1] == "test"
                             && zone == Join(labels, '.')
  {
    var p := zone[..|zone| - 5];
    assert zone == p + ['.'] + "test";
    SplitConcat(p, "test", '.');
    SplitAtom("test", '.');
    JoinSplit(zone, '.');
    var labels := Split(zone, '.');
    assert labels == Split(p, '.') + ["test"];
  }

  lemma LabelsMakeZone(labels: seq<string>)
    requires |labels| >= 2 && AllLabels(labels) && labels[|labels| - 1] == "test"
    ensures ValidateZone(Join(labels, '.')).None?
  {
    hide Join, IsDnsName, ToLower;
    var zone := Join(labels, '.');
    var front := labels[..|labels| - 1];
    DnsNameGrammar(zone);
    DnsNameIsLower(zone);
    NameIsNotEmpty(labels, front);
    JoinLast(labels, '.');
    assert zone == Join(front, '.') + ".test";
    assert zone[|zone| - 5..] == ".test";
    DotTestSuffix(zone);
  }

  lemma DnsNameIsLower(name: string)
    requires IsDnsName(name)
    ensures ToLower(name) == name
  {
    hide IsDnsName;
    DnsNameChars(name);
    assert forall k :: 0 <= k < |name| ==> LowerChar(name[k]) == name[k];
  }

  lemma NameIsNotEmpty(labels: seq<string>, front: seq<string>)
    requires |labels| >= 2 && AllLabels(labels) && front == labels[..|labels| - 1]
    ensures |Join(front, '.')| > 0
  {
    assert IsLabel(labels[0]) && front[0] == labels[0];
  }

  function InputOf(route: Route): RouteInput {
    RouteInput(route.hostname, route.publicMode, route.upstream)
  }

  /** An input NewRoute would accept without changing it. */
  predicate IsNormalInput(parseIp: IpParser, input: RouteInput) {
    Validate(parseIp, input).None? && TrimSpace(input.upstream.host) == input.upstream.host
  }

  lemma AcceptedHostnameIsNormal(hostname: string)
    requires ValidateRelativeHostname(hostname).None?
    ensures ToLower(TrimSpace(hostname)) == hostname
  {
    DnsNameChars(hostname);
    TrimSpaceKeeps(hostname);
    assert forall k :: 0 <= k < |hostname| ==> LowerChar(hostname[k]) == hostname[k];
  }

  lemma AcceptedSchemeIsNormal(scheme: string)
    requires scheme == "http" || scheme == "https"
    ensures ToLower(TrimSpace(scheme)) == scheme
  {
    TrimSpaceKeeps(scheme);
    assert forall k :: 0 <= k < |scheme| ==> LowerChar(scheme[k]) == scheme[k];
  }

  /** Of an accepted input only the upstream host can still change. */
  lemma NormalInputIsFixed(parseIp: IpParser, input: RouteInput)
    ensures IsNormalInput(parseIp, input) <==> Validate(parseIp, input).None? && Normalise(input) == input
  {
    hide TrimSpace, ToLower;
    if Validate(parseIp, input).None? {
      AcceptedHostnameIsNormal(input.hostname);
      AcceptedSchemeIsNormal(input.upstream.scheme);
    }
  }

  /** The fixpoint of NewRoute: what it accepts comes out in a form that it accepts again and
      leaves alone, whatever id and time the second call draws. */
  lemma NewRouteFixpoint(parseIp: IpParser, input: RouteInput, stamp: Stamp, again: Stamp)
    requires Admit(parseIp, input, stamp).Ok?
    ensures var route := Admit(parseIp, input, stamp).value;
            && IsNormalInput(parseIp, InputOf(route))
            && Admit(parseIp, InputOf(route), again)
                == Ok(route.(id := again.id, createdAt := again.at, updatedAt := again.at))
  {
    var normal := Normalise(input);
    AcceptedHostnameIsNormal(normal.hostname);
    AcceptedSchemeIsNormal(normal.upstream.scheme);
    TrimFixpoint(input.upstream.host, SPACES);
  }

  // ----- The rendered host -----

  function FullHost(hostname: string, zone: string): string {
    hostname + "." + zone
  }

  lemma DotTestSuffix(s: string)
    requires HasSuffix(s, ".test")
    ensures |s| >= 5 && s[|s| - 1] == 't' && !HasSuffix(s, ".")
  {
    assert s[|s| - 5..][4] == s[|s| - 1];
    assert s[|s| - 1..][0] == s[|s| - 1];
  }

  /** Every accepted hostname under every accepted zone renders to a host that is itself an
      accepted zone. Its length is not bounded by 253. */
  lemma HostUnderZoneIsZone(hostname: string, zone: string)
    requires ValidateRelativeHostname(hostname).None? && ValidateZone(zone).None?
    ensures ValidateZone(FullHost(hostname, zone)).None?
  {
    var host := FullHost(hostname, zone);
    DnsNameComposition(hostname, zone);
    DnsNameChars(host);
    assert forall k :: 0 <= k < |host| ==> LowerChar(host[k]) == host[k];
    assert host == ToLower(host);
    assert host[|host| - 5..] == zone[|zone| - 5..];
    DotTestSuffix(host);
  }

  /** One-letter labels: the name with `n` dots. */
  function Letters(n: nat): (name: string)
    ensures |name| == 2 * n + 1
  {
    if n == 0 then "a" else "a." + Letters(n - 1)
  }

  lemma {:induction false} LettersAreNames(n: nat)
    ensures IsDnsName(Letters(n)) && Letters(n)[|Letters(n)| - 1] == 'a'
  {
    SplitAtom("a", '.');
    if n > 0 {
      LettersAreNames(n - 1);
      DnsNameComposition("a", Letters(n - 1));
      assert Letters(n) == "a" + "." + Letters(n - 1);
    }
  }

  lemma DefaultZoneLabels()
    ensures IsDnsName("local") && IsDnsName("test")
  {
    SplitAtom("local", '.');
    SplitAtom("test", '.');
  }

  /** The zone of a new installation is accepted. */
  lemma DefaultZoneIsAccepted()
    ensures ValidateZone("local.test").None?
  {
    hide IsDnsName;
    DefaultZoneLabels();
    DnsNameComposition("local", "test");
    assert "local.test" == "local" + "." + "test";
    assert ToLower("local.test") == "local.test";
    assert HasSuffix("local.test", ".test");
    DotTestSuffix("local.test");
  }

  /** The rendered host can exceed the 253 characters its hostname is held to, in every zone; it keeps
      to them exactly when hostname and zone have at most 252 together. */
  lemma FullHostCanBeLong(zone: string)
    ensures forall hostname :: |FullHost(hostname, zone)| <= 253 <==> |hostname| + |zone| <= 252
    ensures ValidateZone(zone).None? ==>
              exists hostname :: ValidateRelativeHostname(hostname).None? && |FullHost(hostname, zone)| > 253
  {
    var hostname := Letters(126);
    LettersAreNames(126);
    if HasSuffix(hostname, ".test") {
      DotTestSuffix(hostname);
    }
    assert ValidateRelativeHostname(hostname).None?;
    assert |FullHost(hostname, zone)| == 254 + |zone|;
  }

  /** Distinct hostnames render to distinct hosts. */
  lemma FullHostInjective(a: string, b: string, zone: string)
    ensures FullHost(a, zone) == FullHost(b, zone) <==> a == b
  {
    if FullHost(a, zone) == FullHost(b, zone) {
      assert a == FullHost(a, zone)[..|FullHost(a, zone)| - |zone| - 1];
      assert b == FullHost(b, zone)[..|FullHost(b, zone)| - |zone| - 1];
    }
  }
}
