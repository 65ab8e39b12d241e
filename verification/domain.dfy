/**
 * Domain extraction from a website string: add a scheme when missing, parse the URL,
 * take its host, strip one leading "www." and lowercase.
 */
module Domain {
  import opened Wrappers
  import opened Ints
  import opened Strings
  import opened Errors

  const HTTP: string := "http://"
  const HTTPS: string := "https://"

  predicate HasHttpScheme(s: string) {
    StartsWith(s, HTTP) || StartsWith(s, HTTPS)
  }

  /** The input with "https://" put in front unless it already names http or https. */
  function WithScheme(s: string): (r: string)
    ensures HasHttpScheme(r)
    ensures HasHttpScheme(s) ==> r == s
    ensures !HasHttpScheme(s) ==> |r| == |HTTPS| + |s| && r[..|HTTPS|] == HTTPS && r[|HTTPS|..] == s
  {
    if HasHttpScheme(s) then s else HTTPS + s
  }

  /** The parts of a parsed `http`/`https` URL that the program relies on. */
  datatype Url = Url(scheme: string, username: string, host: string, port: Option<u16>, tail: string)

  /** The URL parser's errors that an http(s) input can meet, with their rendered text. */
  datatype ParseError = EmptyHost | InvalidPort

  function ParseErrorText(e: ParseError): string {
    match e
    case EmptyHost => "empty host"
    case InvalidPort => "invalid port number"
  }

  /** Characters that end the authority of a special-scheme URL. */
  predicate IsAuthorityEnd(c: char) {
    c == '/' || c == '?' || c == '#' || c == '\\'
  }

  predicate IsDigit(c: char) { '0' <= c <= '9' }

  predicate AllDigits(s: string) {
    forall i :: 0 <= i < |s| ==> IsDigit(s[i])
  }

  /** The decimal value of a digit string. */
  function DigitsValue(s: string): (v: nat)
    requires AllDigits(s)
    decreases |s|
  {
    if s == [] then 0 else DigitsValue(s[..|s| - 1]) * 10 + (s[|s| - 1] as int - '0' as int)
  }

  function DefaultPort(scheme: string): nat {
    if scheme == "http" then 80 else 443
  }

  /** No character of `s` ends an authority. */
  predicate NoAuthorityEnd(s: string) {
    forall i :: 0 <= i < |s| ==> !IsAuthorityEnd(s[i])
  }

  /** A host name as the parser leaves it: no separator, no '@' and no ':'. */
  predicate PlainHost(s: string) {
    forall i :: 0 <= i < |s| ==> !IsAuthorityEnd(s[i]) && s[i] != '@' && s[i] != ':'
  }

  lemma LowerPlainHost(s: string)
    requires PlainHost(s)
    ensures PlainHost(Lower(s)) && IsLower(Lower(s))
  {
  }

  /** Where the host starts in an authority: after its last '@'. */
  function HostStart(authority: string): (k: nat)
    ensures k <= |authority| && '@' !in authority[k..]
  {
    match LastIndexOf(authority, '@')
    case Some(at) => at + 1
    case None => 0
  }

  /** The host text of an authority: from `HostStart` up to the next ':'. */
  function HostText(authority: string): (h: string)
    ensures NoAuthorityEnd(authority) ==> PlainHost(h)
  {
    var k := HostStart(authority);
    var hp := authority[k..];
    var h := hp[..FindChar(hp, ':')];
    assert forall i :: 0 <= i < |h| ==> h[i] == authority[k + i] && h[i] in hp;
    h
  }

  /** The port text of an authority: what follows the ':' after the host, if there is one. */
  function PortText(authority: string): Option<string> {
    var hp := authority[HostStart(authority)..];
    var colon := FindChar(hp, ':');
    if colon < |hp| then Some(hp[colon + 1..]) else None
  }

  /** The user information of an authority: before its last '@', up to the first ':'. */
  function UserName(authority: string): string {
    match LastIndexOf(authority, '@')
    case Some(at) => Before(authority[..at], ':')
    case None => ""
  }

  /**
   * `Url::parse` on an http(s) string, reduced to the authority: user information up to
   * the last '@', a host up to ':' (lowercased, as the parser does for domain names), and
   * a port of decimal digits at most 65535; the default port of the scheme is dropped.
   */
  function ParseUrl(s: string): (r: Result<Url, ParseError>)
    requires HasHttpScheme(s)
    ensures r.Success? ==> r.value.host != [] && IsLower(r.value.host) && PlainHost(r.value.host)
  {
    var https := StartsWith(s, HTTPS);
    var rest := s[if https then |HTTPS| else |HTTP|..];
    var n := FirstWhere(rest, IsAuthorityEnd);
    ParseAuthority(if https then "https" else "http", rest[..n], rest[n..])
  }

  /** A port text the parser accepts: decimal digits for a value of at most 65535. */
  predicate ValidPortText(p: string) {
    AllDigits(p) && DigitsValue(p) <= U16_MAX
  }

  /** The port of a URL: an absent, empty or default port is none; anything else must be valid. */
  function PortNumber(scheme: string, text: Option<string>): (r: Result<Option<u16>, ParseError>)
    ensures r.Failure? <==> text.Some? && text.value != [] && !ValidPortText(text.value)
  {
    match text
    case None => Success(None)
    case Some(p) =>
      if p == [] then Success(None)
      else if !ValidPortText(p) then Failure(InvalidPort)
      else if DigitsValue(p) == DefaultPort(scheme) then Success(None)
      else Success(Some(DigitsValue(p)))
  }

  function ParseAuthority(scheme: string, authority: string, tail: string): (r: Result<Url, ParseError>)
    requires NoAuthorityEnd(authority)
    ensures r.Success? ==> r.value.host != [] && IsLower(r.value.host) && PlainHost(r.value.host)
  {
    var host := Lower(HostText(authority));
    LowerPlainHost(HostText(authority));
    if host == [] then Failure(EmptyHost)
    else
      match PortNumber(scheme, PortText(authority))
      case Failure(e) => Failure(e)
      case Success(port) => Success(Url(scheme, UserName(authority), host, port, tail))
  }

  /** The host with one leading "www." removed. */
  function StripWww(host: string): (r: string)
    ensures StartsWith(host, "www.") ==> host == "www." + r
    ensures !StartsWith(host, "www.") ==> r == host
    ensures PlainHost(host) ==> PlainHost(r)
    ensures IsLower(host) ==> IsLower(r)
  {
    if StartsWith(host, "www.") then
      var r := host[4..];
      assert forall i :: 0 <= i < |r| ==> r[i] == host[i + 4];
      r
    else host
  }

  /** The domain named by a parse result: its host without "www.", lowercased. */
  function DomainOf(p: Result<Url, ParseError>): (r: Result<string, AppError>)
    requires p.Success? ==> PlainHost(p.value.host)
    ensures r.Success? ==> IsLower(r.value) && PlainHost(r.value)
    ensures r.Failure? ==> r.error.UrlParse?
  {
    match p
    case Failure(e) => Failure(UrlParse(ParseErrorText(e)))
    case Success(url) =>
      LowerPlainHost(StripWww(url.host));
      Success(Lower(StripWww(url.host)))
  }

  /** `get_domain_from_url` */
  function GetDomainFromUrl(s: string): (r: Result<string, AppError>)
    ensures s == [] <==> r == Failure(DomainExtraction("Input URL string is empty"))
    ensures r.Success? ==> IsLower(r.value) && PlainHost(r.value)
    ensures r.Failure? && s != [] ==> r.error.UrlParse?
  {
    if s == [] then Failure(DomainExtraction("Input URL string is empty"))
    else DomainOf(ParseUrl(WithScheme(s)))
  }

  /** `normalize_url` */
  function NormalizeUrl(s: string): (r: Result<Url, AppError>)
    ensures s == [] <==> r == Failure(InsufficientInput("Website URL is empty"))
    ensures r.Failure? && s != [] ==> r.error.UrlParse?
    ensures r.Success? ==> r.value.host != [] && IsLower(r.value.host) && PlainHost(r.value.host)
  {
    if s == [] then Failure(InsufficientInput("Website URL is empty"))
    else
      match ParseUrl(WithScheme(s))
      case Failure(e) => Failure(UrlParse(ParseErrorText(e)))
      case Success(url) => Success(url)
  }

  /**
   * The two functions agree on a non-empty input: the domain exists exactly when the URL
   * parses, and it is the URL's host without its "www.".
   */
  lemma DomainOfNormalizedUrl(s: string)
    requires s != []
    ensures GetDomainFromUrl(s).Success? <==> NormalizeUrl(s).Success?
    ensures NormalizeUrl(s).Success? ==> GetDomainFromUrl(s).value == StripWww(NormalizeUrl(s).value.host)
  {
    var p := ParseUrl(WithScheme(s));
    if p.Success? {
      LowerOfLower(StripWww(p.value.host));
    }
  }

  /** A missing scheme is the same as writing "https://" in front. */
  lemma MissingSchemeIsHttps(s: string)
    requires s != [] && !HasHttpScheme(s)
    ensures GetDomainFromUrl(s) == GetDomainFromUrl(HTTPS + s)
  {
    assert StartsWith(HTTPS + s, HTTPS);
  }

  /** The parser splits `scheme + a + tail` into its scheme, the authority `a` and the rest. */
  lemma ParseSplit(scheme: string, a: string, tail: string)
    requires scheme == HTTP || scheme == HTTPS
    requires NoAuthorityEnd(a)
    requires tail == [] || IsAuthorityEnd(tail[0])
    ensures HasHttpScheme(scheme + a + tail)
    ensures ParseUrl(scheme + a + tail) == ParseAuthority(if scheme == HTTP then "http" else "https", a, tail)
  {
    var s := scheme + a + tail;
    assert s[..|scheme|] == scheme;
    assert scheme == HTTP ==> s[4] == ':';
    assert StartsWith(s, HTTPS) <==> scheme == HTTPS;
    var rest := s[|scheme|..];
    assert rest == a + tail;
    FirstWhereAt(a, tail, IsAuthorityEnd);
    assert rest[..|a|] == a && rest[|a|..] == tail;
  }

  /** An authority that is a bare host has that host, no port and no user. */
  lemma BareAuthority(h: string)
    requires PlainHost(h)
    ensures HostText(h) == h && PortText(h) == None && UserName(h) == ""
  {
    assert forall j :: 0 <= j < |h| ==> h[j] != '@' && h[j] != ':';
    assert h[0..] == h;
    var i := FindChar(h, ':');
    assert i == |h|;
    assert h[..|h|] == h;
  }

  /** An authority `h:p` has host `h` and port text `p`. */
  lemma AuthorityWithPort(h: string, p: string)
    requires PlainHost(h) && ValidPortText(p)
    ensures HostText(h + ":" + p) == h && PortText(h + ":" + p) == Some(p)
    ensures NoAuthorityEnd(h + ":" + p)
  {
    var a := h + ":" + p;
    ColonJoin(h, p);
    assert HostStart(a) == 0;
    assert a[0..] == a;
    assert FindChar(a, ':') == |h| by {
      assert forall j :: 0 <= j < |h| ==> a[..|h|][j] != ':';
    }
  }

  /** The pieces of `h + ":" + p`, which holds neither '@' nor a separator. */
  lemma ColonJoin(h: string, p: string)
    requires PlainHost(h) && ValidPortText(p)
    ensures var a := h + ":" + p;
      && a[..|h|] == h && a[|h|] == ':' && a[|h| + 1..] == p
      && (forall j :: 0 <= j < |a| ==> a[j] != '@' && !IsAuthorityEnd(a[j]))
  {
    var a := h + ":" + p;
    forall j | 0 <= j < |a| ensures a[j] != '@' && !IsAuthorityEnd(a[j]) {
      if j > |h| { assert a[j] == p[j - |h| - 1] && IsDigit(p[j - |h| - 1]); }
    }
  }


  /** An authority whose host text is `h` and whose port text is acceptable parses to host `h`. */
  lemma AuthorityHost(scheme: string, a: string, tail: string, h: string)
    requires NoAuthorityEnd(a) && HostText(a) == h && h != [] && IsLower(h)
    requires PortText(a).Some? ==> ValidPortText(PortText(a).value)
    ensures ParseAuthority(scheme, a, tail).Success? && ParseAuthority(scheme, a, tail).value.host == h
  {
    LowerOfLower(h);
  }

  /** The domain named by `scheme + a + tail` when the authority `a` has host text `h`. */
  lemma DomainOfAuthority(scheme: string, a: string, tail: string, h: string)
    requires scheme == HTTP || scheme == HTTPS
    requires NoAuthorityEnd(a) && HostText(a) == h && h != [] && IsLower(h)
    requires PortText(a).Some? ==> ValidPortText(PortText(a).value)
    requires tail == [] || IsAuthorityEnd(tail[0])
    ensures GetDomainFromUrl(scheme + a + tail) == Success(Lower(StripWww(h)))
  {
    ParseSplit(scheme, a, tail);
    AuthorityHost(if scheme == HTTP then "http" else "https", a, tail, h);
  }

  /** With a path after it, a lowercase host still names itself without "www.". */
  lemma DomainOfHostPath(scheme: string, host: string, tail: string)
    requires scheme == HTTP || scheme == HTTPS
    requires host != [] && IsLower(host) && PlainHost(host)
    requires tail == [] || IsAuthorityEnd(tail[0])
    ensures GetDomainFromUrl(scheme + host + tail) == Success(StripWww(host))
  {
    BareAuthority(host);
    DomainOfAuthority(scheme, host, tail, host);
    LowerOfLower(StripWww(host));
  }

  /**
   * Only the host matters: user information, a port and a path, query or fragment after
   * the authority do not change the extracted domain.
   */
  lemma PortAndPathDropped(scheme: string, a: string, tail: string, host: string)
    requires scheme == HTTP || scheme == HTTPS
    requires host != [] && IsLower(host) && PlainHost(host)
    requires NoAuthorityEnd(a) && HostText(a) == host
    requires PortText(a).Some? ==> ValidPortText(PortText(a).value)
    requires tail == [] || IsAuthorityEnd(tail[0])
    ensures GetDomainFromUrl(scheme + a + tail) == GetDomainFromUrl(scheme + host)
  {
    DomainOfAuthority(scheme, a, tail, host);
    LowerOfLower(StripWww(host));
    DomainOfBareHost(scheme, host);
  }

  /** A bare lowercase host names itself without its "www.". */
  lemma DomainOfBareHost(scheme: string, host: string)
    requires scheme == HTTP || scheme == HTTPS
    requires host != [] && IsLower(host) && PlainHost(host)
    ensures GetDomainFromUrl(scheme + host) == Success(StripWww(host))
  {
    DomainOfHostPath(scheme, host, []);
    assert scheme + host + [] == scheme + host;
  }

  /** A lowercase host without a leading "www." comes back whole: subdomains are kept. */
  lemma SubdomainsKept(host: string)
    requires host != [] && IsLower(host) && PlainHost(host) && !StartsWith(host, "www.")
    ensures GetDomainFromUrl(HTTPS + host) == Success(host)
  {
    DomainOfBareHost(HTTPS, host);
  }

  /** Exactly one leading "www." is removed. */
  lemma WwwStripped(host: string)
    requires IsLower(host) && PlainHost(host) && StartsWith(host, "www.") && |host| > 4
    ensures GetDomainFromUrl(HTTPS + host) == Success(host[4..])
  {
    DomainOfBareHost(HTTPS, host);
  }

  /** Without a scheme, a host starting with "www." is read as an https URL. */
  lemma WwwWithoutScheme(host: string)
    requires StartsWith(host, "www.")
    ensures GetDomainFromUrl(host) == GetDomainFromUrl(HTTPS + host)
  {
    assert host[0] == 'w';
    assert !HasHttpScheme(host);
    MissingSchemeIsHttps(host);
  }

  /** "http://" names no host, so no domain comes out of it. */
  lemma NoHostIsError()
    ensures GetDomainFromUrl("http://").Failure?
    ensures NormalizeUrl("http://").Failure?
  {
    ParseSplit(HTTP, "", []);
    assert HTTP + "" + [] == "http://";
    BareAuthority("");
  }
}
