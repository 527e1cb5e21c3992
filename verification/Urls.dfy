/** Source URLs and the proxy origin taken from them: what sourceOrigin accepts, what
    validateURL accepts, and exactly when the first implies the second. The parser is net/url's
    for URLs of the two schemes the checks admit, after section 3 of RFC 3986 and the zone
    identifiers of RFC 6874; a string is a sequence of bytes. */
module Urls {
  import opened Llm

  /** What differs between releases of the parser: the texts it takes for an IP literal
      between brackets, and whether a second colon in a bare host is refused. Everything
      below holds for every choice. */
  datatype Rules = Rules(literal: string -> bool, oneColon: bool)

  /** Host keeps the decoded authority without userinfo, port included. */
  datatype Url = Url(scheme: string, hasUser: bool, host: string, query: string, fragment: string)

  function Find(s: string, c: char): (i: nat)
    ensures i <= |s|
    ensures i < |s| ==> s[i] == c
    ensures c !in s[..i]
  {
    if s == [] || s[0] == c then 0
    else
      var rest := Find(s[1..], c);
      assert s[..rest + 1] == [s[0]] + s[1..][..rest];
      1 + rest
  }

  function Before(s: string, c: char): string { s[..Find(s, c)] }

  function After(s: string, c: char): string {
    if Find(s, c) == |s| then "" else s[Find(s, c) + 1..]
  }

  function LastOf(s: string, c: char): (i: int)
    ensures -1 <= i < |s|
    ensures i >= 0 ==> s[i] == c
    ensures forall k | i < k < |s| :: s[k] != c
  {
    if s == [] then -1 else if s[|s| - 1] == c then |s| - 1 else LastOf(s[..|s| - 1], c)
  }

  /** Where an escaped '%' starts, or the length. */
  function FindZone(s: string): (i: nat)
    ensures i <= |s|
    ensures i < |s| ==> s[i] == '%' && i + 3 <= |s| && s[i..i + 3] == "%25"
  {
    if |s| < 3 then |s|
    else if s[..3] == "%25" then 0
    else
      var rest := FindZone(s[1..]);
      assert rest < |s[1..]| ==> s[1..][rest..rest + 3] == s[1 + rest..1 + rest + 3];
      1 + rest
  }

  function LowerAll(s: string): string {
    if s == "" then "" else [LowerChar(s[0])] + LowerAll(s[1..])
  }

  predicate Digit(c: char) { '0' <= c <= '9' }

  predicate Hex(c: char) { Digit(c) || 'a' <= c <= 'f' || 'A' <= c <= 'F' }

  function HexValue(c: char): (n: int)
    requires Hex(c)
    ensures 0 <= n < 16
  {
    if Digit(c) then (c - '0') as int
    else if 'a' <= c <= 'f' then (c - 'a') as int + 10
    else (c - 'A') as int + 10
  }

  /** The ASCII characters a host may carry unescaped. */
  predicate HostChar(c: char) {
    || Digit(c) || 'a' <= c <= 'z' || 'A' <= c <= 'Z'
    || c in "-_.~!$&'()*+,;=:[]<>\""
  }

  /** Bytes no URL may hold, fragment aside. */
  predicate Control(c: char) {
    c as int < 32 || c as int == 127
  }

  predicate NoControl(s: string) {
    forall i | 0 <= i < |s| :: !Control(s[i])
  }

  /** Every '%' starts a well-formed escape. */
  predicate WellEscaped(s: string) {
    s == []
    || (if s[0] == '%' then |s| >= 3 && Hex(s[1]) && Hex(s[2]) && WellEscaped(s[3..]) else WellEscaped(s[1..]))
  }

  /** The byte an escape stands for. */
  function Escaped(a: char, b: char): (n: int)
    requires Hex(a) && Hex(b)
    ensures 0 <= n < 256
  {
    16 * HexValue(a) + HexValue(b)
  }

  /** In a host an escape stands for a non-ASCII byte or for '%'; in a zone for a byte that
      could have been written plainly, for a space, or for '%'. */
  predicate MayEscape(n: int, zone: bool)
    requires 0 <= n < 256
  {
    n == 0x25 || (if zone then n == 0x20 || (n < 128 && HostChar(n as char)) else n >= 128)
  }

  /** unescape, in host and in zone mode. */
  function Decode(h: string, zone: bool): Option<string> {
    if h == [] then Some("")
    else if h[0] == '%' then
      if |h| < 3 || !Hex(h[1]) || !Hex(h[2]) || !MayEscape(Escaped(h[1], h[2]), zone) then None
      else
        match Decode(h[3..], zone)
        case None => None
        case Some(rest) => Some([Escaped(h[1], h[2]) as char] + rest)
    else if h[0] < 128 as char && !HostChar(h[0]) then None
    else
      match Decode(h[1..], zone)
      case None => None
      case Some(rest) => Some([h[0]] + rest)
  }

  /** The text between brackets: an address, and a zone from the first escaped '%' on. */
  function DecodeLiteral(inner: string): Option<string> {
    var z := FindZone(inner);
    match Decode(inner[..z], false)
    case None => None
    case Some(address) =>
      match Decode(inner[z..], true)
      case None => None
      case Some(zone) => Some(address + zone)
  }

  predicate OptionalPort(p: string) {
    p == "" || (p[0] == ':' && forall i | 1 <= i < |p| :: Digit(p[i]))
  }

  /** parseHost */
  function ParseHost(rules: Rules, h: string): Option<string> {
    if '[' in h then
      var close := LastOf(h, ']');
      if h[0] != '[' || LastOf(h, '[') != 0 || close < 1 || !OptionalPort(h[close + 1..]) then None
      else
        match DecodeLiteral(h[1..close])
        case None => None
        case Some(text) => if rules.literal(text) then Some("[" + text + "]" + h[close + 1..]) else None
    else if ':' in h && !OptionalPort(h[if rules.oneColon then Find(h, ':') else LastOf(h, ':')..]) then None
    else Decode(h, false)
  }

  predicate ValidUserinfo(s: string) {
    && (forall i | 0 <= i < |s| :: Digit(s[i]) || 'a' <= s[i] <= 'z' || 'A' <= s[i] <= 'Z' || s[i] in "-._:~!$&'()*+,;=%@")
    && WellEscaped(s)
  }

  /** parseAuthority: whether there is userinfo, and the decoded host. */
  function ParseAuthority(rules: Rules, authority: string): Option<(bool, string)> {
    var at := LastOf(authority, '@');
    if at >= 0 && !ValidUserinfo(authority[..at]) then None
    else
      match ParseHost(rules, authority[at + 1..])
      case None => None
      case Some(host) => Some((at >= 0, host))
  }

  /** url.Parse, for URLs with an http or https scheme. */
  function Parse(rules: Rules, s: string): Option<Url> {
    var fragment := After(s, '#');
    var plain := Before(s, '#');
    var scheme := LowerAll(Before(plain, ':'));
    var rest := After(plain, ':');
    var query := After(rest, '?');
    var path := Before(rest, '?');
    if !NoControl(plain) || !WellEscaped(fragment) then None
    else if |path| < 2 || path[..2] != "//" then Some(Url(scheme, false, "", query, fragment))
    else
      var authority := Before(path[2..], '/');
      if !WellEscaped(path[2 + |authority|..]) then None
      else
        match ParseAuthority(rules, authority)
        case None => None
        case Some((hasUser, host)) => Some(Url(scheme, hasUser, host, query, fragment))
  }

  /** url.Hostname: the host without port and brackets. */
  function Hostname(host: string): string {
    var c := LastOf(host, ':');
    var h := if c >= 0 && OptionalPort(host[c..]) then host[..c] else host;
    if |h| >= 2 && h[0] == '[' && h[|h| - 1] == ']' then h[1..|h| - 1] else h
  }

  /** sourceOrigin: the proxy origin of a configured source URL. */
  function SourceOrigin(rules: Rules, source: string): Option<string> {
    match Parse(rules, source)
    case None => None
    case Some(u) =>
      if (u.scheme != "http" && u.scheme != "https") || Hostname(u.host) == "" || u.fragment != "" || u.hasUser
      then None
      else Some(u.scheme + "://" + u.host)
  }

  /** validateURL: a usable proxy target. */
  predicate Usable(rules: Rules, endpoint: string) {
    && endpoint != ""
    && match Parse(rules, endpoint)
       case None => false
       case Some(u) =>
         (u.scheme == "http" || u.scheme == "https") && Hostname(u.host) != "" && u.query == "" && u.fragment == ""
  }

  // ---------------------------------------------------------------- the implication

  predicate TameChar(c: char) {
    c !in "#?/@" && !Control(c)
  }

  /** Decoded hosts hold no delimiter of the surrounding syntax and no control byte. */
  predicate Tame(h: string) {
    forall i | 0 <= i < |h| :: TameChar(h[i])
  }

  lemma TameEscape(n: int, zone: bool)
    requires 0 <= n < 256 && MayEscape(n, zone)
    ensures TameChar(n as char)
  {
  }

  lemma TamePlain(c: char)
    requires c as int >= 128 || HostChar(c)
    ensures TameChar(c)
  {
  }

  lemma {:induction false} DecodedIsTame(h: string, zone: bool)
    requires Decode(h, zone).Some?
    ensures Tame(Decode(h, zone).value)
  {
    hide HostChar, MayEscape, TameChar, Hex;
    if h == [] {
    } else if h[0] == '%' {
      DecodedIsTame(h[3..], zone);
      TameEscape(Escaped(h[1], h[2]), zone);
    } else {
      DecodedIsTame(h[1..], zone);
      TamePlain(h[0]);
    }
  }

  lemma TameConcat(a: string, b: string)
    requires Tame(a) && Tame(b)
    ensures Tame(a + b)
  {
  }

  lemma PortIsTame(p: string)
    requires OptionalPort(p)
    ensures Tame(p)
  {
  }

  lemma ParsedHostIsTame(rules: Rules, h: string)
    requires ParseHost(rules, h).Some?
    ensures Tame(ParseHost(rules, h).value)
  {
    hide Decode, Tame, OptionalPort;
    if '[' in h {
      var close := LastOf(h, ']');
      var inner := h[1..close];
      var z := FindZone(inner);
      DecodedIsTame(inner[..z], false);
      DecodedIsTame(inner[z..], true);
      var address, zone := Decode(inner[..z], false).value, Decode(inner[z..], true).value;
      TameConcat(address, zone);
      assert Tame("[") && Tame("]") by { BracketsAreTame(); }
      TameConcat("[", address + zone);
      TameConcat("[" + (address + zone), "]");
      PortIsTame(h[close + 1..]);
      TameConcat("[" + (address + zone) + "]", h[close + 1..]);
    } else {
      DecodedIsTame(h, false);
    }
  }

  lemma BracketsAreTame()
    ensures Tame("[") && Tame("]")
  {
  }

  lemma {:induction false} FindMissing(s: string, c: char)
    requires c !in s
    ensures Find(s, c) == |s| && Before(s, c) == s && After(s, c) == ""
  {
    if s != [] { FindMissing(s[1..], c); }
  }

  ghost predicate NoneOf(s: string, bad: string) {
    forall i | 0 <= i < |s| :: s[i] !in bad
  }

  /** Parsing http(s)://authority followed by nothing or a path. */
  lemma ParsePlain(rules: Rules, scheme: string, authority: string, tail: string)
    requires scheme == "http" || scheme == "https"
    requires NoneOf(authority, "#?/@") && NoneOf(tail, "#?") && (tail == "" || tail[0] == '/')
    requires NoControl(authority) && NoControl(tail)
    ensures Parse(rules, scheme + [':'] + ("//" + (authority + tail)))
         == if !WellEscaped(tail) then None
            else (match ParseHost(rules, authority) case None => None case Some(h) => Some(Url(scheme, false, h, "", "")))
  {
    hide Find, ParseAuthority, ParseHost, LowerAll, NoControl, WellEscaped, Before, After;
    var rest := "//" + (authority + tail);
    var s := scheme + [':'] + rest;
    assert Before(s, '#') == s && After(s, '#') == "" by { NoDelimiter(scheme, authority, tail, '#'); }
    assert Before(s, ':') == scheme && After(s, ':') == rest by { FindAt(scheme, ':', rest); }
    assert Before(rest, '?') == rest && After(rest, '?') == "" by { NoDelimiter(scheme, authority, tail, '?'); }
    assert rest[2..] == authority + tail && rest[..2] == "//";
    assert Before(authority + tail, '/') == authority by { AuthorityEnds(authority, tail); }
    assert rest[2 + |authority|..] == tail;
    UserlessAuthority(rules, authority);
    assert LowerAll(scheme) == scheme by { LowerScheme(); }
    assert NoControl(s) by { UrlHasNoControl(scheme, authority, tail); }
    NothingEscaped();
  }

  lemma NothingEscaped()
    ensures WellEscaped("") && WellEscaped("/")
  {
    assert "/"[1..] == "";
  }

  lemma UserlessAuthority(rules: Rules, authority: string)
    requires NoneOf(authority, "#?/@")
    ensures ParseAuthority(rules, authority)
         == (match ParseHost(rules, authority) case None => None case Some(h) => Some((false, h)))
  {
    hide ParseHost, ValidUserinfo;
    assert LastOf(authority, '@') == -1 && authority[0..] == authority;
  }

  lemma UrlHasNoControl(scheme: string, authority: string, tail: string)
    requires scheme == "http" || scheme == "https"
    requires NoControl(authority) && NoControl(tail)
    ensures NoControl(scheme + [':'] + ("//" + (authority + tail)))
  {
    assert NoControl(scheme) && NoControl([':']) && NoControl("//");
  }

  lemma LowerScheme()
    ensures LowerAll("http") == "http" && LowerAll("https") == "https"
  {
    assert "http"[1..] == "ttp" && "ttp"[1..] == "tp" && "tp"[1..] == "p" && "p"[1..] == "";
    assert "https"[1..] == "ttps" && "ttps"[1..] == "tps" && "tps"[1..] == "ps" && "ps"[1..] == "s" && "s"[1..] == "";
    assert LowerAll("p") == "p" && LowerAll("tp") == "tp" && LowerAll("ttp") == "ttp";
    assert LowerAll("s") == "s" && LowerAll("ps") == "ps" && LowerAll("tps") == "tps" && LowerAll("ttps") == "ttps";
  }

  lemma NoDelimiter(scheme: string, authority: string, tail: string, c: char)
    requires scheme == "http" || scheme == "https"
    requires c == '#' || c == '?'
    requires NoneOf(authority, "#?/@") && NoneOf(tail, "#?")
    ensures var rest := "//" + (authority + tail);
            && Before(rest, c) == rest && After(rest, c) == ""
            && Before(scheme + [':'] + rest, c) == scheme + [':'] + rest && After(scheme + [':'] + rest, c) == ""
  {
    var rest := "//" + (authority + tail);
    assert c !in authority && c !in tail && c !in "//" && c !in scheme;
    assert c !in rest;
    assert c !in scheme + [':'] + rest;
    FindMissing(rest, c);
    FindMissing(scheme + [':'] + rest, c);
  }

  lemma AuthorityEnds(authority: string, tail: string)
    requires '/' !in authority && (tail == "" || tail[0] == '/')
    ensures Before(authority + tail, '/') == authority
  {
    if tail == "" {
      assert authority + tail == authority;
      FindMissing(authority, '/');
    } else {
      assert authority + tail == authority + ['/'] + tail[1..];
      FindAt(authority, '/', tail[1..]);
    }
  }

  lemma ParseOrigin(rules: Rules, scheme: string, host: string)
    requires scheme == "http" || scheme == "https"
    requires Tame(host)
    ensures Parse(rules, scheme + "://" + host)
         == (match ParseHost(rules, host) case None => None case Some(h) => Some(Url(scheme, false, h, "", "")))
  {
    hide Parse, ParseHost;
    assert scheme + "://" + host == scheme + [':'] + ("//" + (host + ""));
    assert NoneOf(host, "#?/@") && NoControl(host) by {
      forall i | 0 <= i < |host| ensures host[i] !in "#?/@" && !Control(host[i]) { assert TameChar(host[i]); }
    }
    ParsePlain(rules, scheme, host, "");
  }

  lemma {:induction false} FindAt(a: string, c: char, b: string)
    requires c !in a
    ensures Find(a + [c] + b, c) == |a| && Before(a + [c] + b, c) == a && After(a + [c] + b, c) == b
    ensures a + ([c] + b) == a + [c] + b
  {
    if a == [] {
      assert (a + [c] + b)[0] == c;
    } else {
      assert (a + [c] + b)[1..] == a[1..] + [c] + b;
      FindAt(a[1..], c, b);
    }
  }

  /** An accepted source's origin is a usable target exactly when its decoded host parses as
      a host once more, to something that still has a hostname. */
  lemma OriginUsableIff(rules: Rules, source: string)
    requires SourceOrigin(rules, source).Some?
    ensures var host := Parse(rules, source).value.host;
            Usable(rules, SourceOrigin(rules, source).value) <==>
              ParseHost(rules, host).Some? && Hostname(ParseHost(rules, host).value) != ""
  {
    hide Parse, ParseHost, Hostname, Tame;
    var u := Parse(rules, source).value;
    HostIsTame(rules, source);
    ParseOrigin(rules, u.scheme, u.host);
  }

  lemma HostIsTame(rules: Rules, source: string)
    requires Parse(rules, source).Some?
    ensures Tame(Parse(rules, source).value.host)
  {
    hide ParseHost, WellEscaped, NoControl, LowerAll, Find;
    var rest := After(Before(source, '#'), ':');
    var path := Before(rest, '?');
    if |path| >= 2 && path[..2] == "//" {
      var authority := Before(path[2..], '/');
      ParsedHostIsTame(rules, authority[LastOf(authority, '@') + 1..]);
    }
  }

  lemma {:induction false} PlainDecodesToItself(h: string, zone: bool)
    requires '%' !in h && Decode(h, zone).Some?
    ensures Decode(h, zone).value == h
  {
    if h != [] { PlainDecodesToItself(h[1..], zone); }
  }

  lemma PlainHostStays(rules: Rules, h: string)
    requires '%' !in h && ParseHost(rules, h).Some?
    ensures ParseHost(rules, h).value == h
  {
    hide Decode, OptionalPort;
    if '[' in h {
      var close := LastOf(h, ']');
      var inner := h[1..close];
      var z := FindZone(inner);
      PlainDecodesToItself(inner[..z], false);
      PlainDecodesToItself(inner[z..], true);
      assert inner[..z] + inner[z..] == inner;
      assert "[" + inner + "]" + h[close + 1..] == h;
    } else {
      PlainDecodesToItself(h, false);
    }
  }

  lemma PlainAuthority(rules: Rules, authority: string)
    requires '%' !in authority && ParseAuthority(rules, authority).Some?
    ensures var host := ParseAuthority(rules, authority).value.1; ParseHost(rules, host) == Some(host)
  {
    hide ParseHost, ValidUserinfo;
    PlainHostStays(rules, authority[LastOf(authority, '@') + 1..]);
  }

  /** Without an escape in it, what sourceOrigin accepts validateURL accepts. */
  lemma PlainOriginUsable(rules: Rules, source: string)
    requires '%' !in source && SourceOrigin(rules, source).Some?
    ensures Usable(rules, SourceOrigin(rules, source).value)
  {
    hide ParseHost, ParseAuthority, WellEscaped, NoControl, LowerAll, Hostname;
    var rest := After(Before(source, '#'), ':');
    var path := Before(rest, '?');
    assert '%' !in rest && '%' !in path;
    if |path| >= 2 && path[..2] == "//" {
      var authority := Before(path[2..], '/');
      assert '%' !in path[2..] && '%' !in authority;
      PlainAuthority(rules, authority);
      OriginUsableIff(rules, source);
    }
    assert Hostname("") == "" by { NoHostname(); }
  }

  lemma NoHostname()
    ensures Hostname("") == ""
  {
  }

  // ---------------------------------------------------------------- concrete URLs

  /** The implication is not general: an escaped '%' in the host survives into the origin
      unescaped, where it no longer parses. */
  lemma EscapedPercentBreaksOrigin(rules: Rules)
    ensures SourceOrigin(rules, "http://a%25/").Some? && !Usable(rules, SourceOrigin(rules, "http://a%25/").value)
  {
    hide Parse, ParseHost;
    assert "http://a%25/" == "http" + [':'] + ("//" + ("a%25" + "/"));
    HostExample(rules);
    ParsePlain(rules, "http", "a%25", "/");
    OriginUsableIff(rules, "http://a%25/");
  }

  lemma HostExample(rules: Rules)
    ensures ParseHost(rules, "a%25") == Some("a%") && ParseHost(rules, "a%") == None && Hostname("a%") == "a%"
    ensures WellEscaped("/")
  {
    assert "%25"[3..] == "" && Decode("", false) == Some("");
    assert Escaped('2', '5') == 0x25;
    assert Decode("%25", false) == Some("%") by { assert ['%'] + "" == "%"; }
    assert "a%25"[1..] == "%25" && ['a'] + "%" == "a%" && "a%"[1..] == "%";
    assert LastOf("a%", ':') == -1;
    assert "/"[1..] == "";
  }

  /** So does an escape inside the zone of a bracketed address, wherever the release takes
      the decoded text for a literal. */
  lemma EscapedZoneBreaksOrigin(rules: Rules)
    requires rules.literal("f::%A")
    ensures SourceOrigin(rules, "http://[f::%25%41]/").Some?
    ensures !Usable(rules, SourceOrigin(rules, "http://[f::%25%41]/").value)
  {
    hide Parse, ParseHost, WellEscaped, Hostname, Usable, NoneOf, Control;
    assert NoneOf("[f::%25%41]", "#?/@") && NoControl("[f::%25%41]") && NoneOf("/", "#?") && NoControl("/") by { ZoneIsTame(); }
    assert "http://[f::%25%41]/" == "http" + [':'] + ("//" + ("[f::%25%41]" + "/"));
    ZoneExample(rules);
    ParsePlain(rules, "http", "[f::%25%41]", "/");
    OriginUsableIff(rules, "http://[f::%25%41]/");
  }

  lemma ZoneIsTame()
    ensures NoneOf("[f::%25%41]", "#?/@") && NoControl("[f::%25%41]") && NoneOf("/", "#?") && NoControl("/")
  {
  }

  /** A port that is no number, or a path with a broken escape, is refused at once. */
  lemma BrokenUrlsAreRefused(rules: Rules)
    ensures SourceOrigin(rules, "http://a:%25/") == None && SourceOrigin(rules, "http://a/%zz") == None
  {
    hide Parse, ParseHost;
    assert "http://a:%25/" == "http" + [':'] + ("//" + ("a:%25" + "/"));
    assert "http://a/%zz" == "http" + [':'] + ("//" + ("a" + "/%zz"));
    BrokenExample(rules);
    ParsePlain(rules, "http", "a:%25", "/");
    ParsePlain(rules, "http", "a", "/%zz");
  }

  lemma BrokenExample(rules: Rules)
    ensures ParseHost(rules, "a:%25") == None && !WellEscaped("/%zz")
  {
    assert Find("a:%25", ':') == 1 by { FindAt("a", ':', "%25"); assert "a" + [':'] + "%25" == "a:%25"; }
    assert LastOf("a:%25", ':') == 1;
    assert "a:%25"[1..] == ":%25" && !Digit(":%25"[1]);
    assert ':' == "a:%25"[1];
    assert "/%zz"[1..] == "%zz" && !Hex('z');
  }

  lemma ZoneExample(rules: Rules)
    requires rules.literal("f::%A")
    ensures ParseHost(rules, "[f::%25%41]") == Some("[f::%A]") && Hostname("[f::%A]") != ""
    ensures ParseHost(rules, "[f::%A]") == None && WellEscaped("/")
  {
    hide DecodeLiteral, WellEscaped;
    ZoneDecodes();
    var h, g := "[f::%25%41]", "[f::%A]";
    assert LastOf(h, ']') == 10 && h[1..10] == "f::%25%41" && h[11..] == "";
    assert LastOf(h, '[') == 0 by { LastOfFirst(h); }
    assert "[" + "f::%A" + "]" + "" == g;
    assert LastOf(g, ']') == 6 && g[1..6] == "f::%A";
    assert OptionalPort("");
    assert Hostname(g) != "" by { ZoneHostname(); }
    NothingEscaped();
  }

  lemma ZoneHostname()
    ensures Hostname("[f::%A]") != ""
  {
    var g := "[f::%A]";
    assert LastOf(g[..4], ':') == 3 && g[..6][..5] == g[..5] && g[..5][..4] == g[..4];
    assert LastOf(g[..5], ':') == 3 && LastOf(g[..6], ':') == 3;
    assert g[3..][1] == '%';
  }

  lemma LastOfFirst(h: string)
    requires h != "" && h[0] == '[' && '[' !in h[1..]
    ensures LastOf(h, '[') == 0
  {
    forall k | 1 <= k < |h| ensures h[k] != '[' { assert h[k] == h[1..][k - 1]; }
  }

  lemma DecodePlain(c: char, rest: string, zone: bool)
    requires HostChar(c) && c != '%'
    ensures Decode([c] + rest, zone) == (match Decode(rest, zone) case None => None case Some(t) => Some([c] + t))
  {
    assert ([c] + rest)[1..] == rest;
  }

  lemma DecodeEscape(a: char, b: char, rest: string, zone: bool)
    requires Hex(a) && Hex(b) && MayEscape(Escaped(a, b), zone)
    ensures Decode(['%', a, b] + rest, zone)
         == (match Decode(rest, zone) case None => None case Some(t) => Some([Escaped(a, b) as char] + t))
  {
    assert (['%', a, b] + rest)[3..] == rest;
  }

  lemma ZoneDecodes()
    ensures DecodeLiteral("f::%25%41") == Some("f::%A") && DecodeLiteral("f::%A") == None
  {
    hide Decode, FindZone;
    assert Decode("f::", false) == Some("f::") && Decode("f::%A", false) == None by { AddressDecodes(); }
    assert Decode("%25%41", true) == Some("%A") by { ZoneTextDecodes(); }
    assert FindZone("f::%25%41") == 3 && FindZone("f::%A") == 5 by { ZonesFound(); }
    assert "f::%25%41"[..3] == "f::" && "f::%25%41"[3..] == "%25%41" && "f::%A"[..5] == "f::%A";
    assert "f::" + "%A" == "f::%A";
  }

  lemma ZonesFound()
    ensures FindZone("f::%25%41") == 3 && FindZone("f::%A") == 5
  {
    var h, g := "f::%25%41", "f::%A";
    assert h[1..] == "::%25%41" && "::%25%41"[1..] == ":%25%41" && ":%25%41"[1..] == "%25%41";
    assert FindZone("%25%41") == 0 && FindZone(":%25%41") == 1 && FindZone("::%25%41") == 2;
    assert g[1..] == "::%A" && "::%A"[1..] == ":%A" && ":%A"[1..] == "%A";
    assert FindZone("%A") == 2 && FindZone(":%A") == 3 && FindZone("::%A") == 4;
  }

  lemma AddressDecodes()
    ensures Decode("f::", false) == Some("f::") && Decode("f::%A", false) == None
  {
    assert ":" == [':'] + "" && "::" == [':'] + ":" && "f::" == ['f'] + "::";
    DecodePlain(':', "", false);
    DecodePlain(':', ":", false);
    DecodePlain('f', "::", false);
    assert ":%A" == [':'] + "%A" && "::%A" == [':'] + ":%A" && "f::%A" == ['f'] + "::%A";
    DecodePlain(':', "%A", false);
    DecodePlain(':', ":%A", false);
    DecodePlain('f', "::%A", false);
  }

  lemma ZoneTextDecodes()
    ensures Decode("%25%41", true) == Some("%A")
  {
    DecodeEscape('4', '1', "", true);
    DecodeEscape('2', '5', "%41", true);
    assert ['%', '4', '1'] + "" == "%41" && ['%', '2', '5'] + "%41" == "%25%41";
    assert "A" + "" == "A" && "%" + "A" == "%A";
  }
}
