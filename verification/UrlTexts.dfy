/** What the two origin checks say of a URL, part by part of its text: scheme, authority, path,
    query and fragment. */
module UrlTexts {
  import opened Llm
  import opened Urls

  /** A URL with an authority, in its parts; query and fragment with their delimiters. */
  datatype Parts = Parts(scheme: string, authority: string, path: string, query: string, fragment: string)

  ghost predicate Delimited(p: Parts) {
    && NoneOf(p.scheme, ":#") && NoneOf(p.authority, "/?#")
    && NoneOf(p.path, "?#") && (p.path == "" || p.path[0] == '/')
    && (p.query == "" || (p.query[0] == '?' && '#' !in p.query))
    && (p.fragment == "" || p.fragment[0] == '#')
  }

  ghost function Text(p: Parts): string {
    p.scheme + ":" + "//" + p.authority + p.path + p.query + p.fragment
  }

  ghost predicate Web(scheme: string) {
    LowerAll(scheme) in {"http", "https"}
  }

  /** No control byte before the fragment, and only whole escapes in path and fragment. */
  ghost predicate Clean(p: Parts) {
    && NoControl(p.scheme) && NoControl(p.authority) && NoControl(p.path) && NoControl(p.query)
    && WellEscaped(p.path) && WellEscaped(p.fragment[if p.fragment == "" then 0 else 1..])
  }

  lemma FindHere(a: string, c: char, b: string)
    requires c !in a && (b == "" || b[0] == c)
    ensures Before(a + b, c) == a && After(a + b, c) == b[if b == "" then 0 else 1..]
  {
    if b == "" {
      assert a + b == a;
      FindMissing(a, c);
    } else {
      assert a + b == a + [c] + b[1..];
      FindAt(a, c, b[1..]);
    }
  }

  lemma NoneOfConcat(a: string, b: string, bad: string)
    ensures NoneOf(a + b, bad) <==> NoneOf(a, bad) && NoneOf(b, bad)
  {
    forall i | 0 <= i < |b| ensures b[i] == (a + b)[|a| + i] {
    }
    forall i | 0 <= i < |a| ensures a[i] == (a + b)[i] {
    }
  }

  lemma NoControlConcat(a: string, b: string)
    ensures NoControl(a + b) <==> NoControl(a) && NoControl(b)
  {
    forall i | 0 <= i < |b| ensures b[i] == (a + b)[|a| + i] {
    }
    forall i | 0 <= i < |a| ensures a[i] == (a + b)[i] {
    }
  }

  /** The parser cuts a text at its delimiters. */
  lemma ParseText(rules: Rules, p: Parts)
    requires Delimited(p)
    ensures Parse(rules, Text(p))
         == if !Clean(p) then None
            else match ParseAuthority(rules, p.authority)
                 case None => None
                 case Some((hasUser, host)) =>
                   Some(Url(LowerAll(p.scheme), hasUser, host, p.query[if p.query == "" then 0 else 1..],
                            p.fragment[if p.fragment == "" then 0 else 1..]))
  {
    hide Find, ParseAuthority, LowerAll, NoControl, WellEscaped, Before, After, NoneOf;
    var rest := "//" + p.authority + p.path + p.query;
    var plain := p.scheme + ":" + rest;
    assert Text(p) == plain + p.fragment;
    assert '#' !in plain by { PlainPart(p); }
    FindHere(plain, '#', p.fragment);
    assert plain == p.scheme + (":" + rest) && (":" + rest)[1..] == rest;
    assert ':' !in p.scheme by { assert NoneOf(p.scheme, ":#"); NoneOfMeans(p.scheme, ":#"); }
    FindHere(p.scheme, ':', ":" + rest);
    assert '?' !in "//" + p.authority + p.path by { NoneOfMeans(p.authority, "/?#"); NoneOfMeans(p.path, "?#"); }
    FindHere("//" + p.authority + p.path, '?', p.query);
    var path := "//" + p.authority + p.path;
    assert path[2..] == p.authority + p.path && path[..2] == "//";
    assert '/' !in p.authority by { NoneOfMeans(p.authority, "/?#"); }
    FindHere(p.authority, '/', p.path);
    assert path[2 + |p.authority|..] == p.path;
    assert NoControl(plain) <==> NoControl(p.scheme) && NoControl(p.authority) && NoControl(p.path) && NoControl(p.query) by {
      ControlParts(p);
    }
  }

  lemma NoneOfMeans(s: string, bad: string)
    requires NoneOf(s, bad)
    ensures forall c | c in bad :: c !in s
  {
  }

  lemma PlainPart(p: Parts)
    requires Delimited(p)
    ensures '#' !in p.scheme + ":" + ("//" + p.authority + p.path + p.query)
  {
    NoneOfMeans(p.scheme, ":#");
    NoneOfMeans(p.authority, "/?#");
    NoneOfMeans(p.path, "?#");
    assert '#' !in p.query && '#' !in "//" && '#' !in ":";
  }

  lemma ControlParts(p: Parts)
    ensures NoControl(p.scheme + ":" + ("//" + p.authority + p.path + p.query))
       <==> NoControl(p.scheme) && NoControl(p.authority) && NoControl(p.path) && NoControl(p.query)
  {
    hide NoControl;
    assert NoControl(":") && NoControl("//") by { Delimiters(); }
    NoControlConcat(p.scheme + ":", "//" + p.authority + p.path + p.query);
    NoControlConcat(p.scheme, ":");
    NoControlConcat("//" + p.authority + p.path, p.query);
    NoControlConcat("//" + p.authority, p.path);
    NoControlConcat("//", p.authority);
  }

  lemma Delimiters()
    ensures NoControl(":") && NoControl("//")
  {
  }

  /** sourceOrigin, read off the text: an http or https URL with a host, no userinfo and an
      empty fragment; its origin is the scheme and the decoded host, nothing else. */
  lemma SourceOriginMeans(rules: Rules, p: Parts)
    requires Delimited(p)
    ensures var host := ParseHost(rules, p.authority);
            && (SourceOrigin(rules, Text(p)).Some? <==>
                  && Clean(p) && Web(p.scheme) && '@' !in p.authority && host.Some? && Hostname(host.value) != "" && |p.fragment| <= 1)
            && (SourceOrigin(rules, Text(p)).Some? ==>
                  SourceOrigin(rules, Text(p)).value == LowerAll(p.scheme) + "://" + host.value)
  {
    hide Parse, ParseHost, Hostname, LowerAll, Clean, Text;
    ParseText(rules, p);
    AuthorityMeans(rules, p.authority);
  }

  /** Without userinfo an authority is its host. */
  lemma AuthorityMeans(rules: Rules, authority: string)
    ensures '@' !in authority ==>
              ParseAuthority(rules, authority) == (match ParseHost(rules, authority) case None => None case Some(h) => Some((false, h)))
    ensures '@' in authority && ParseAuthority(rules, authority).Some? ==> ParseAuthority(rules, authority).value.0
  {
    hide ParseHost, ValidUserinfo;
    if '@' !in authority { assert LastOf(authority, '@') == -1 && authority[0..] == authority; }
  }

  /** validateURL, read off the text: an http or https URL with a host and with neither a query
      nor a fragment; userinfo passes here. */
  lemma UsableMeans(rules: Rules, p: Parts)
    requires Delimited(p)
    ensures Usable(rules, Text(p)) <==>
              && Clean(p) && Web(p.scheme) && |p.query| <= 1 && |p.fragment| <= 1
              && exists hasUser, host :: ParseAuthority(rules, p.authority) == Some((hasUser, host)) && Hostname(host) != ""
  {
    hide Parse, ParseAuthority, Hostname, LowerAll, Clean;
    ParseText(rules, p);
    assert Text(p) != "";
    hide Text;
  }

  lemma {:induction false} LastOfIs(s: string, c: char, i: nat)
    requires i < |s| && s[i] == c && forall k | i < k < |s| :: s[k] != c
    ensures LastOf(s, c) == i
  {
  }

  /** Where a port ends a host: from its colon on, or nowhere. */
  lemma PortEnds(h: string, port: string)
    requires OptionalPort(port) && ':' !in h
    ensures port == "" ==> LastOf(h + port, ':') == -1
    ensures port != "" ==> LastOf(h + port, ':') == |h| && (h + port)[|h|..] == port && (h + port)[..|h|] == h
  {
    var host := h + port;
    if port == "" {
      assert host == h;
    } else {
      forall k | |h| < k < |host| ensures host[k] != ':' { assert host[k] == port[k - |h|]; }
      assert host[|h|] == port[0];
      LastOfIs(host, ':', |h|);
    }
  }

  /** A host has no hostname exactly when it is nothing but a port, or empty brackets. */
  lemma NoHostnameIff(host: string)
    ensures Hostname(host) == "" <==> exists port :: OptionalPort(port) && (host == port || host == "[]" + port)
  {
    hide LastOf, OptionalPort;
    assert OptionalPort("") by { NoPort(); }
    if Hostname(host) == "" {
      var c := LastOf(host, ':');
      var cut := if c >= 0 && OptionalPort(host[c..]) then c else |host|;
      assert host[..cut] == "" || host[..cut] == "[]";
      assert host == host[..cut] + host[cut..] && OptionalPort(host[cut..]);
    }
    if port :| OptionalPort(port) && (host == port || host == "[]" + port) {
      var h := if host == port then "" else "[]";
      assert host == h + port;
      PortEnds(h, port);
    }
  }

  lemma NoPort()
    ensures OptionalPort("")
  {
  }

  /** Anything without an authority is refused by both. */
  lemma NoAuthorityIsRefused(rules: Rules, s: string)
    requires var rest := After(Before(s, '#'), ':'); var path := Before(rest, '?'); |path| < 2 || path[..2] != "//"
    ensures SourceOrigin(rules, s) == None && !Usable(rules, s)
  {
    NoHostname();
    hide Before, After, WellEscaped, NoControl, LowerAll, Hostname;
  }

  // ---------------------------------------------------------------- hosts and their escapes

  /** How one byte of a host or zone may be written. */
  datatype Token = Plain(c: char) | Escape(a: char, b: char)

  ghost predicate Allowed(t: Token, zone: bool) {
    match t
    case Plain(c) => c != '%' && (c as int >= 128 || HostChar(c))
    case Escape(a, b) => Hex(a) && Hex(b) && MayEscape(Escaped(a, b), zone)
  }

  ghost function Written(t: Token): string {
    match t
    case Plain(c) => [c]
    case Escape(a, b) => ['%', a, b]
  }

  ghost function ByteOf(t: Token, zone: bool): char
    requires Allowed(t, zone)
  {
    match t
    case Plain(c) => c
    case Escape(a, b) => Escaped(a, b) as char
  }

  ghost function Spelling(ts: seq<Token>): string {
    if ts == [] then "" else Written(ts[0]) + Spelling(ts[1..])
  }

  ghost function Bytes(ts: seq<Token>, zone: bool): string
    requires forall t | t in ts :: Allowed(t, zone)
  {
    if ts == [] then "" else [ByteOf(ts[0], zone)] + Bytes(ts[1..], zone)
  }

  /** Decoding undoes every allowed spelling, token by token. */
  lemma {:induction false} DecodeInvertsSpelling(ts: seq<Token>, zone: bool)
    requires forall t | t in ts :: Allowed(t, zone)
    ensures Decode(Spelling(ts), zone) == Some(Bytes(ts, zone))
  {
    hide HostChar, MayEscape, Hex;
    if ts != [] {
      DecodeInvertsSpelling(ts[1..], zone);
      assert Allowed(ts[0], zone);
      match ts[0]
      case Plain(c) => assert ([c] + Spelling(ts[1..]))[1..] == Spelling(ts[1..]);
      case Escape(a, b) => assert (['%', a, b] + Spelling(ts[1..]))[3..] == Spelling(ts[1..]);
    }
  }

  /** And it accepts nothing else. */
  lemma {:induction false} DecodedIsSpelled(h: string, zone: bool) returns (ts: seq<Token>)
    requires Decode(h, zone).Some?
    ensures (forall t | t in ts :: Allowed(t, zone)) && Spelling(ts) == h && Bytes(ts, zone) == Decode(h, zone).value
  {
    hide MayEscape, Hex;
    if h == "" {
      ts := [];
    } else {
      var first := if h[0] == '%' then Escape(h[1], h[2]) else Plain(h[0]);
      var rest := DecodedIsSpelled(h[|Written(first)|..], zone);
      ts := [first] + rest;
      assert ts[1..] == rest && Written(first) + h[|Written(first)|..] == h;
    }
  }
}
