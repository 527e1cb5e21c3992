/** Undoing a Content-Encoding header: the header's layers, the peeling order of section 8.4
    of RFC 9110, the size cap and the salvage rule. The codecs themselves are parameters. */
module ContentEncoding {
  import opened Llm

  newtype Byte = x: int | 0 <= x < 256

  type Bytes = seq<Byte>

  const MAX_DECOMPRESSED := 48 * 1024 * 1024

  datatype Coding = Gzip | Zstd | Brotli

  datatype End = Clean | Early | Corrupt | BadHeader

  /** What a library reader yields on some bytes: its output and how it ended. */
  datatype Read = Read(out: Bytes, end: End)

  type Reader = (Coding, Bytes) -> Read

  /** A successful decode; truncated marks one that was salvaged. */
  datatype Decoded = Decoded(body: Bytes, truncated: bool)

  // ---------------------------------------------------------------- header text

  function Lower(s: string): (r: string)
    ensures |r| == |s| && forall i | 0 <= i < |s| :: r[i] == LowerChar(s[i])
  {
    if s == "" then "" else Lower(s[..|s| - 1]) + [LowerChar(s[|s| - 1])]
  }

  predicate IsSpace(c: char) {
    c == ' ' || c == '\t' || c == '\n' || c == '\r' || c as int == 11 || c as int == 12 || c as int == 0x85 || c as int == 0xA0
  }

  function TrimLeft(s: string): (r: string)
    ensures |r| <= |s|
  {
    if s != "" && IsSpace(s[0]) then TrimLeft(s[1..]) else s
  }

  function TrimRight(s: string): (r: string)
    ensures |r| <= |s|
  {
    if s != "" && IsSpace(s[|s| - 1]) then TrimRight(s[..|s| - 1]) else s
  }

  function Trim(s: string): string {
    TrimRight(TrimLeft(s))
  }

  /** strings.Split on a comma: always at least one part. */
  function Split(s: string): (parts: seq<string>)
    ensures parts != []
  {
    if s == "" then [""]
    else
      var parts, c := Split(s[..|s| - 1]), s[|s| - 1];
      if c == ',' then parts + [""] else parts[|parts| - 1 := parts[|parts| - 1] + [c]]
  }

  function Kept(parts: seq<string>): seq<string> {
    if parts == [] then []
    else
      var p := Trim(parts[|parts| - 1]);
      var head := Kept(parts[..|parts| - 1]);
      if p == "" || p == "identity" then head else head + [p]
  }

  /** splitContentEncoding */
  function Layers(ce: string): seq<string> {
    Kept(Split(ce))
  }

  // ---------------------------------------------------------------- one layer

  function CodingOf(name: string): Option<Coding> {
    if name == "gzip" || name == "x-gzip" then Some(Gzip)
    else if name == "zstd" then Some(Zstd)
    else if name == "br" then Some(Brotli)
    else None
  }

  /** readCapped: the cap is ruled on before the salvage. */
  function ReadCapped(r: Read): Option<Decoded> {
    if |r.out| > MAX_DECOMPRESSED then None
    else if r.end == Clean then Some(Decoded(r.out, false))
    else if r.end == Early && r.out != [] then Some(Decoded(r.out, true))
    else None
  }

  /** decodeOneLayer */
  function DecodeLayer(reader: Reader, body: Bytes, name: string): Option<Decoded> {
    var coding := CodingOf(name);
    if coding.None? || body == [] then None
    else
      var r := reader(coding.value, body);
      if r.end == BadHeader then None else ReadCapped(r)
  }

  /** Peeling the first n layers, outermost (last listed) first. */
  function Peel(reader: Reader, body: Bytes, layers: seq<string>, n: nat): Option<Decoded>
    requires n <= |layers|
  {
    if n == 0 then Some(Decoded(body, false))
    else
      match Peel(reader, body, layers, n - 1)
      case None => None
      case Some(before) =>
        match DecodeLayer(reader, before.body, layers[|layers| - n])
        case None => None
        case Some(d) => Some(Decoded(d.body, before.truncated || d.truncated))
  }

  /** DecodeContentEncoding */
  function Decode(reader: Reader, body: Bytes, encoding: string): Option<Decoded> {
    var ce := Trim(Lower(encoding));
    if ce == "" || ce == "identity" then Some(Decoded(body, false))
    else Peel(reader, body, Layers(ce), |Layers(ce)|)
  }

  // ---------------------------------------------------------------- as it runs

  method SplitContentEncoding(ce: string) returns (out: seq<string>)
    ensures out == Layers(ce)
  {
    var parts := Split(ce);
    out := [];
    var i := 0;
    while i < |parts|
      invariant 0 <= i <= |parts|
      invariant out == Kept(parts[..i])
    {
      var p := Trim(parts[i]);
      assert parts[..i + 1][..i] == parts[..i];
      if p != "" && p != "identity" { out := out + [p]; }
      i := i + 1;
    }
    assert parts[..i] == parts;
  }

  method DecodeContentEncoding(reader: Reader, body: Bytes, encoding: string) returns (r: Option<Decoded>)
    ensures r == Decode(reader, body, encoding)
  {
    hide DecodeLayer;
    var ce := Trim(Lower(encoding));
    if ce == "" || ce == "identity" { return Some(Decoded(body, false)); }
    var layers := SplitContentEncoding(ce);
    var current, truncated := body, false;
    var i := |layers| - 1;
    while i >= 0
      invariant -1 <= i < |layers|
      invariant Peel(reader, body, layers, |layers| - 1 - i) == Some(Decoded(current, truncated))
    {
      var layer := DecodeLayer(reader, current, layers[i]);
      if layer.None? {
        PeelFails(reader, body, layers, |layers| - i, |layers|);
        return None;
      }
      truncated := truncated || layer.value.truncated;
      current := layer.value.body;
      i := i - 1;
    }
    r := Some(Decoded(current, truncated));
  }

  lemma {:induction false} PeelFails(reader: Reader, body: Bytes, layers: seq<string>, n: nat, m: nat)
    requires n <= m <= |layers| && Peel(reader, body, layers, n) == None
    ensures Peel(reader, body, layers, m) == None
  {
    hide DecodeLayer;
    if n < m { PeelFails(reader, body, layers, n, m - 1); }
  }

  // ---------------------------------------------------------------- failure and salvage

  /** What layer n (counted from the outermost) makes of its input, if it is reached. */
  ghost function LayerResult(reader: Reader, body: Bytes, layers: seq<string>, n: nat): Option<Option<Decoded>>
    requires n < |layers|
  {
    match Peel(reader, body, layers, n)
    case None => None
    case Some(before) => Some(DecodeLayer(reader, before.body, layers[|layers| - 1 - n]))
  }

  /** The decode fails exactly when some layer it reaches fails, and is marked truncated
      exactly when some layer was salvaged. */
  lemma {:induction false} FailureAndSalvage(reader: Reader, body: Bytes, layers: seq<string>, m: nat)
    requires m <= |layers|
    ensures Peel(reader, body, layers, m) == None <==> exists n :: 0 <= n < m && LayerResult(reader, body, layers, n) == Some(None)
    ensures Peel(reader, body, layers, m).Some? ==>
              (Peel(reader, body, layers, m).value.truncated
               <==> exists n :: 0 <= n < m && SalvagedAt(reader, body, layers, n))
  {
    hide DecodeLayer;
    if m > 0 {
      FailureAndSalvage(reader, body, layers, m - 1);
      var before := Peel(reader, body, layers, m - 1);
      if before.Some? {
        assert LayerResult(reader, body, layers, m - 1) == Some(DecodeLayer(reader, before.value.body, layers[|layers| - m]));
        assert SalvagedAt(reader, body, layers, m - 1)
          <==> LayerResult(reader, body, layers, m - 1).value.Some? && LayerResult(reader, body, layers, m - 1).value.value.truncated;
      }
    }
  }

  ghost predicate SalvagedAt(reader: Reader, body: Bytes, layers: seq<string>, n: nat)
    requires n < |layers|
  {
    var r := LayerResult(reader, body, layers, n);
    r.Some? && r.value.Some? && r.value.value.truncated
  }

  /** The content codings the decoder knows, aliases included. */
  const KNOWN := map["gzip" := Gzip, "x-gzip" := Gzip, "zstd" := Zstd, "br" := Brotli]

  /** A layer decodes exactly when its coding is known, there are bytes, and its stream, within
      the cap, ended cleanly or early with some output; only the last is salvage. An oversize
      stream is refused however it ended. */
  lemma SalvageIsBounded(reader: Reader, body: Bytes, name: string)
    ensures var d := DecodeLayer(reader, body, name);
            && (d.Some? <==> && name in KNOWN && body != []
                             && var r := reader(KNOWN[name], body);
                                |r.out| <= MAX_DECOMPRESSED && (r.end == Clean || (r.end == Early && r.out != [])))
            && (d.Some? ==> && d.value.body == reader(KNOWN[name], body).out
                            && (d.value.truncated <==> reader(KNOWN[name], body).end == Early))
  {
    assert CodingOf(name).Some? <==> name in KNOWN;
  }

  // ---------------------------------------------------------------- headers, however spelled

  function Join(tokens: seq<string>): string {
    if tokens == [] then ""
    else if |tokens| == 1 then tokens[0]
    else Join(tokens[..|tokens| - 1]) + "," + tokens[|tokens| - 1]
  }

  predicate NoComma(t: string) {
    forall c | c in t :: c != ','
  }

  lemma SplitSnoc(s: string, c: char)
    ensures Split(s + [c]) == (if c == ',' then Split(s) + [""] else Split(s)[|Split(s)| - 1 := Split(s)[|Split(s)| - 1] + [c]])
  {
    assert (s + [c])[..|s|] == s;
  }

  lemma {:induction false} SplitWord(s: string, t: string)
    requires NoComma(t)
    ensures Split(s + t) == Split(s)[|Split(s)| - 1 := Split(s)[|Split(s)| - 1] + t]
  {
    hide Split;
    if t == "" {
      assert s + t == s;
      assert Split(s)[|Split(s)| - 1] + t == Split(s)[|Split(s)| - 1];
    } else {
      var n := |t| - 1;
      assert t[n] in t;
      assert forall c | c in t[..n] :: c in t;
      SplitWord(s, t[..n]);
      assert s + t == (s + t[..n]) + [t[n]];
      SplitSnoc(s + t[..n], t[n]);
      var last := Split(s)[|Split(s)| - 1];
      assert (last + t[..n]) + [t[n]] == last + t;
    }
  }

  lemma {:induction false} SplitJoin(tokens: seq<string>)
    requires tokens != [] && forall t | t in tokens :: NoComma(t)
    ensures Split(Join(tokens)) == tokens
  {
    var n := |tokens| - 1;
    var t := tokens[n];
    assert t in tokens;
    if n == 0 {
      SplitWord("", t);
      assert "" + t == t && tokens == [t];
    } else {
      assert forall x | x in tokens[..n] :: x in tokens;
      SplitJoin(tokens[..n]);
      SplitSnoc(Join(tokens[..n]), ',');
      SplitWord(Join(tokens[..n]) + [','], t);
      assert Join(tokens) == (Join(tokens[..n]) + [',']) + t;
      assert "" + t == t;
    }
  }

  lemma TrimFront(c: char, s: string)
    requires IsSpace(c)
    ensures Trim([c] + s) == Trim(s)
  {
    assert ([c] + s)[1..] == s;
  }

  lemma {:induction false} TrimBack(s: string, c: char)
    requires IsSpace(c)
    ensures Trim(s + [c]) == Trim(s)
  {
    TrimLeftBack(s, c);
    if TrimLeft(s) == "" {
      assert TrimLeft(s + [c]) == "" || TrimLeft(s + [c]) == [c];
      assert [c][..0] == "";
    } else {
      assert (TrimLeft(s) + [c])[..|TrimLeft(s)|] == TrimLeft(s);
    }
  }

  lemma {:induction false} TrimLeftBack(s: string, c: char)
    requires IsSpace(c)
    ensures TrimLeft(s) == "" ==> TrimLeft(s + [c]) == ""
    ensures TrimLeft(s) != "" ==> TrimLeft(s + [c]) == TrimLeft(s) + [c]
  {
    if s == "" {
      assert s + [c] == [c] && [c][1..] == "";
    } else {
      assert (s + [c])[1..] == s[1..] + [c];
      if IsSpace(s[0]) { TrimLeftBack(s[1..], c); }
    }
  }

  lemma {:induction false} LayersFront(c: char, s: string)
    requires IsSpace(c)
    ensures Layers([c] + s) == Layers(s)
  {
    SplitFront(c, s);
    TrimFront(c, Split(s)[0]);
    KeptFirst(Split(s), [c] + Split(s)[0]);
  }

  lemma {:induction false} SplitFront(c: char, s: string)
    requires c != ','
    ensures Split([c] + s) == Split(s)[0 := [c] + Split(s)[0]]
  {
    if s == "" {
      assert [c] + s == [c] && [c][..0] == "" && Split("") == [""] && "" + [c] == [c] + "";
    } else {
      var n := |s| - 1;
      SplitFront(c, s[..n]);
      assert ([c] + s)[..|s|] == [c] + s[..n];
      var parts := Split(s[..n]);
      if |parts| == 1 { assert ([c] + parts[0]) + [s[n]] == [c] + (parts[0] + [s[n]]); }
    }
  }

  /** Replacing the first part by one that trims alike keeps the layers. */
  lemma {:induction false} KeptFirst(parts: seq<string>, t: string)
    requires parts != [] && Trim(t) == Trim(parts[0])
    ensures Kept(parts[0 := t]) == Kept(parts)
  {
    hide Trim;
    var n := |parts| - 1;
    if n == 0 {
      assert parts[0 := t][..0] == parts[..0];
    } else {
      assert parts[0 := t][..n] == parts[..n][0 := t];
      KeptFirst(parts[..n], t);
    }
  }

  lemma LayersBack(s: string, c: char)
    requires IsSpace(c)
    ensures Layers(s + [c]) == Layers(s)
  {
    hide Trim, Split;
    SplitSnoc(s, c);
    var parts := Split(s);
    var n := |parts| - 1;
    TrimBack(parts[n], c);
    assert parts[n := parts[n] + [c]][..n] == parts[..n];
  }

  /** Trimming the whole header first changes no layer. */
  lemma {:induction false} LayersTrim(s: string)
    ensures Layers(Trim(s)) == Layers(s)
  {
    hide Layers, IsSpace;
    LayersTrimLeft(s);
    LayersTrimRight(TrimLeft(s));
  }

  lemma {:induction false} LayersTrimLeft(s: string)
    ensures Layers(TrimLeft(s)) == Layers(s)
  {
    hide Layers, IsSpace;
    if s != "" && IsSpace(s[0]) {
      LayersFront(s[0], s[1..]);
      assert s == [s[0]] + s[1..];
      LayersTrimLeft(s[1..]);
    }
  }

  lemma {:induction false} LayersTrimRight(s: string)
    ensures Layers(TrimRight(s)) == Layers(s)
  {
    hide Layers, IsSpace;
    if s != "" && IsSpace(s[|s| - 1]) {
      LayersBack(s[..|s| - 1], s[|s| - 1]);
      assert s == s[..|s| - 1] + [s[|s| - 1]];
      LayersTrimRight(s[..|s| - 1]);
    }
  }

  function LowerAll(tokens: seq<string>): (r: seq<string>)
    ensures |r| == |tokens| && forall i | 0 <= i < |tokens| :: r[i] == Lower(tokens[i])
  {
    if tokens == [] then [] else LowerAll(tokens[..|tokens| - 1]) + [Lower(tokens[|tokens| - 1])]
  }

  lemma {:induction false} LowerJoin(tokens: seq<string>)
    ensures Lower(Join(tokens)) == Join(LowerAll(tokens))
  {
    var n := |tokens| - 1;
    if |tokens| > 1 {
      LowerJoin(tokens[..n]);
      assert LowerAll(tokens)[..n] == LowerAll(tokens[..n]);
      assert Lower(Join(tokens)) == Lower(Join(tokens[..n])) + "," + Lower(tokens[n]);
    }
  }

  /** A header spells some codings when its comma-separated tokens, lower-cased and trimmed,
      with empty and identity ones dropped, are their names. */
  ghost predicate HeaderSpells(header: string, tokens: seq<string>, names: seq<string>) {
    && tokens != [] && header == Join(tokens) && (forall t | t in tokens :: NoComma(t))
    && Kept(LowerAll(tokens)) == names
  }

  lemma {:induction false} HeaderLayers(header: string, tokens: seq<string>, names: seq<string>)
    requires HeaderSpells(header, tokens, names)
    ensures Layers(Trim(Lower(header))) == names
  {
    LayersTrim(Lower(header));
    LowerJoin(tokens);
    var lowered := LowerAll(tokens);
    forall t | t in lowered ensures NoComma(t) {
      var i :| 0 <= i < |lowered| && lowered[i] == t;
      assert tokens[i] in tokens;
      forall c | c in t ensures c != ',' {
        var k :| 0 <= k < |t| && t[k] == c;
        assert tokens[i][k] in tokens[i];
      }
    }
    SplitJoin(lowered);
  }

  /** The shortcut for a bare header agrees with peeling no layer. */
  lemma DecodePeels(reader: Reader, body: Bytes, encoding: string)
    ensures var layers := Layers(Trim(Lower(encoding)));
            Decode(reader, body, encoding) == Peel(reader, body, layers, |layers|)
  {
    var ce := Trim(Lower(encoding));
    if ce == "" {
      assert Split("") == [""] && Trim("") == "" && [""][..0] == [];
    } else if ce == "identity" {
      SplitWord("", ce);
      assert "" + ce == ce && Split("") == [""] && Split(ce) == [ce];
      assert [ce][..0] == [];
      assert Trim(ce) == ce;
      assert Kept([ce]) == [];
    }
  }

  // ---------------------------------------------------------------- the round trip

  type Writer = (Coding, Bytes) -> Bytes

  /** The body with the first n listed codings applied, in listed order. */
  function Applied(writer: Writer, body: Bytes, codings: seq<Coding>, n: nat): Bytes
    requires n <= |codings|
  {
    if n == 0 then body else writer(codings[n - 1], Applied(writer, body, codings, n - 1))
  }

  /** names are names of the codings, x-gzip being another name of gzip. */
  ghost predicate Named(names: seq<string>, codings: seq<Coding>) {
    |names| == |codings| && forall i | 0 <= i < |names| :: CodingOf(names[i]) == Some(codings[i])
  }

  /** Every stage decodes back, is not empty once encoded, and is within the cap. */
  ghost predicate Invertible(reader: Reader, writer: Writer, body: Bytes, codings: seq<Coding>) {
    forall n | 0 <= n < |codings| :: StageInverts(reader, writer, body, codings, n)
  }

  ghost predicate StageInverts(reader: Reader, writer: Writer, body: Bytes, codings: seq<Coding>, n: nat)
    requires n < |codings|
  {
    var plain, coded := Applied(writer, body, codings, n), Applied(writer, body, codings, n + 1);
    coded != [] && |plain| <= MAX_DECOMPRESSED && reader(codings[n], coded) == Read(plain, Clean)
  }

  lemma {:induction false} PeelInverts(reader: Reader, writer: Writer, body: Bytes, codings: seq<Coding>,
                                       names: seq<string>, n: nat)
    requires Named(names, codings) && Invertible(reader, writer, body, codings) && n <= |names|
    ensures Peel(reader, Applied(writer, body, codings, |codings|), names, n)
         == Some(Decoded(Applied(writer, body, codings, |codings| - n), false))
  {
    hide Applied, CodingOf;
    if n > 0 {
      PeelInverts(reader, writer, body, codings, names, n - 1);
      var k := |codings| - n;
      assert CodingOf(names[k]) == Some(codings[k]) && StageInverts(reader, writer, body, codings, k);
      assert DecodeLayer(reader, Applied(writer, body, codings, k + 1), names[k])
          == Some(Decoded(Applied(writer, body, codings, k), false));
    }
  }

  /** Decoding the encoded body under any spelling of the joined header gives the body back:
      case, spacing, empty and identity tokens make no difference. */
  lemma DecodeInvertsEncode(reader: Reader, writer: Writer, body: Bytes, codings: seq<Coding>, names: seq<string>,
                            tokens: seq<string>, header: string)
    requires Named(names, codings) && Invertible(reader, writer, body, codings) && HeaderSpells(header, tokens, names)
    ensures Decode(reader, Applied(writer, body, codings, |codings|), header) == Some(Decoded(body, false))
  {
    hide Decode, Peel, Layers, Trim, Lower, HeaderSpells, Invertible, Named;
    assert |names| == |codings| by { SameLength(names, codings); }
    HeaderLayers(header, tokens, names);
    DecodePeels(reader, Applied(writer, body, codings, |codings|), header);
    PeelInverts(reader, writer, body, codings, names, |names|);
  }

  lemma SameLength(names: seq<string>, codings: seq<Coding>)
    requires Named(names, codings)
    ensures |names| == |codings|
  {
  }

  predicate PlainChar(c: char) {
    c == '-' || 'a' <= c <= 'z'
  }

  lemma PlainCharStays(c: char)
    requires PlainChar(c)
    ensures LowerChar(c) == c && !IsSpace(c) && c != ','
  {
  }

  lemma PlainWord(name: string)
    requires name != "" && forall i | 0 <= i < |name| :: PlainChar(name[i])
    ensures Trim(Lower(name)) == name && NoComma(name)
  {
    hide Lower, IsSpace, LowerChar, PlainChar;
    forall i | 0 <= i < |name| ensures LowerChar(name[i]) == name[i] && !IsSpace(name[i]) && name[i] != ',' { PlainCharStays(name[i]); }
    assert Lower(name) == name;
  }

  lemma NameIsPlain(name: string)
    requires CodingOf(name).Some?
    ensures Trim(Lower(name)) == name && name != "" && name != "identity" && NoComma(name)
  {
    hide Trim, Lower, NoComma;
    PlainWord(name);
  }

  lemma {:induction false} PlainNamesKept(names: seq<string>)
    requires forall n | n in names :: CodingOf(n).Some?
    ensures Kept(LowerAll(names)) == names && forall n | n in names :: NoComma(n)
  {
    hide CodingOf, Trim, Lower, NoComma;
    if names != [] {
      var k := |names| - 1;
      assert names[k] in names && names == names[..k] + [names[k]];
      PlainNamesKept(names[..k]);
      NameIsPlain(names[k]);
      assert LowerAll(names)[..k] == LowerAll(names[..k]);
    }
  }

  /** In particular the header an encoder writes: the names joined by bare commas. */
  lemma PlainHeaderDecodes(reader: Reader, writer: Writer, body: Bytes, codings: seq<Coding>, names: seq<string>)
    requires Named(names, codings) && names != [] && Invertible(reader, writer, body, codings)
    ensures Decode(reader, Applied(writer, body, codings, |codings|), Join(names)) == Some(Decoded(body, false))
  {
    hide Decode, Join, Invertible, CodingOf;
    forall n | n in names ensures CodingOf(n).Some? {
      var i :| 0 <= i < |names| && names[i] == n;
      assert CodingOf(names[i]) == Some(codings[i]);
    }
    PlainNamesKept(names);
    DecodeInvertsEncode(reader, writer, body, codings, names, names, Join(names));
  }
}
