/**
 The parts of Go's net/url that share links go through: percent-coding (section 2.1 of
 RFC 3986), queries, and URLs of the shape scheme://[userinfo@]host[:port][/path][?query][#fragment].
 */
module Urls {
  import opened Common
  import opened GoStrings

  // ---- Percent-coding ----

  predicate IsAlnum(c: char) { '0' <= c <= '9' || 'A' <= c <= 'Z' || 'a' <= c <= 'z' }

  predicate Unreserved(c: char) { IsAlnum(c) || c == '-' || c == '_' || c == '.' || c == '~' }

  function HexChar(d: nat): char
    requires d < 16
  {
    if d < 10 then ('0' as int + d) as char else ('A' as int + d - 10) as char
  }

  function HexValue(c: char): Option<nat> {
    if '0' <= c <= '9' then Some(c as int - '0' as int)
    else if 'A' <= c <= 'F' then Some(c as int - 'A' as int + 10)
    else if 'a' <= c <= 'f' then Some(c as int - 'a' as int + 10)
    else None
  }

  datatype Mode = Query | PathSegment | Fragment | UserPassword

  predicate Kept(c: char, mode: Mode) {
    || Unreserved(c)
    || (!mode.Query? && (c == '$' || c == '&' || c == '+' || c == '='))
    || (mode.PathSegment? && (c == ':' || c == '@'))
    || (mode.UserPassword? && (c == ',' || c == ';'))
    || (mode.Fragment? && (',' <= c <= '/' || c == ':' || c == ';' || c == '?' || c == '@'))
    || (mode.Fragment? && (c == '!' || '(' <= c <= '*'))
  }

  function EscapeByte(c: char, mode: Mode): string {
    if mode.Query? && c == ' ' then "+"
    else if Kept(c, mode) then [c]
    else ['%', HexChar(c as int % 256 / 16), HexChar(c as int % 16)]
  }

  function Escape(s: string, mode: Mode): string {
    if s == "" then "" else EscapeByte(s[0], mode) + Escape(s[1..], mode)
  }

  /** QueryUnescape when `plusIsSpace`, PathUnescape otherwise; None on a broken escape. */
  function Unescape(s: string, plusIsSpace: bool): Option<string>
    decreases |s|
  {
    if s == "" then Some("")
    else if s[0] == '%' then
      if |s| < 3 || HexValue(s[1]).None? || HexValue(s[2]).None? then None
      else
        match Unescape(s[3..], plusIsSpace)
        case None => None
        case Some(rest) => Some([(HexValue(s[1]).value * 16 + HexValue(s[2]).value) as char] + rest)
    else
      match Unescape(s[1..], plusIsSpace)
      case None => None
      case Some(rest) => Some([if plusIsSpace && s[0] == '+' then ' ' else s[0]] + rest)
  }

  lemma {:induction false} UnescapePlain(s: string)
    requires '%' !in s
    ensures Unescape(s, false) == Some(s)
  {
    if s != "" {
      UnescapePlain(s[1..]);
      assert s == [s[0]] + s[1..];
    }
  }

  /** What reading an escape of `c` gives. */
  function ReadByte(c: char, mode: Mode, plusIsSpace: bool): char {
    if mode.Query? && c == ' ' && !plusIsSpace then '+'
    else if !mode.Query? && Kept(c, mode) && c == '+' && plusIsSpace then ' '
    else c
  }

  function ReadBytes(s: string, mode: Mode, plusIsSpace: bool): (r: string)
    ensures |r| == |s|
  {
    seq(|s|, i requires 0 <= i < |s| => ReadByte(s[i], mode, plusIsSpace))
  }

  lemma KeptByteReads(c: char, plusIsSpace: bool, rest: string)
    requires c != '%' && Unescape(rest, plusIsSpace).Some?
    ensures Unescape([c] + rest, plusIsSpace)
            == Some([if plusIsSpace && c == '+' then ' ' else c] + Unescape(rest, plusIsSpace).value)
  {
  }

  lemma HexByteReads(c: char, plusIsSpace: bool, rest: string)
    requires c as int < 256 && Unescape(rest, plusIsSpace).Some?
    ensures Unescape(['%', HexChar(c as int % 256 / 16), HexChar(c as int % 16)] + rest, plusIsSpace)
            == Some([c] + Unescape(rest, plusIsSpace).value)
  {
  }

  lemma EscapedByteReads(c: char, mode: Mode, plusIsSpace: bool, rest: string)
    requires c as int < 256 && Unescape(rest, plusIsSpace).Some?
    ensures Unescape(EscapeByte(c, mode) + rest, plusIsSpace)
            == Some([ReadByte(c, mode, plusIsSpace)] + Unescape(rest, plusIsSpace).value)
  {
    if mode.Query? && c == ' ' {
      KeptByteReads('+', plusIsSpace, rest);
    } else if Kept(c, mode) {
      KeptByteReads(c, plusIsSpace, rest);
    } else {
      HexByteReads(c, plusIsSpace, rest);
    }
  }

  /** Reading back what was escaped, in either style: exact when the styles match; a query read
      with the path style has its spaces turned into '+'. */
  lemma {:induction false} UnescapeEscape(s: string, mode: Mode, plusIsSpace: bool)
    requires IsBytes(s)
    ensures Unescape(Escape(s, mode), plusIsSpace) == Some(ReadBytes(s, mode, plusIsSpace))
  {
    if s != "" {
      UnescapeEscape(s[1..], mode, plusIsSpace);
      EscapedByteReads(s[0], mode, plusIsSpace, Escape(s[1..], mode));
      assert ReadBytes(s, mode, plusIsSpace)
          == [ReadByte(s[0], mode, plusIsSpace)] + ReadBytes(s[1..], mode, plusIsSpace);
    }
  }

  lemma QueryRoundTrip(s: string)
    requires IsBytes(s)
    ensures Unescape(Escape(s, Query), true) == Some(s)
    ensures ' ' !in s ==> Unescape(Escape(s, Query), false) == Some(s)
  {
    UnescapeEscape(s, Query, true);
    UnescapeEscape(s, Query, false);
    assert ReadBytes(s, Query, true) == s;
  }

  lemma PathRoundTrip(s: string, mode: Mode)
    requires IsBytes(s) && mode != Query
    ensures Unescape(Escape(s, mode), false) == Some(s)
  {
    UnescapeEscape(s, mode, false);
    assert ReadBytes(s, mode, false) == s;
  }

  predicate QueryChar(c: char) { Unreserved(c) || c == '%' || c == '+' }

  predicate AllQueryChars(s: string) { forall i :: 0 <= i < |s| ==> QueryChar(s[i]) }

  lemma {:induction false} EscapedQueryChars(s: string)
    ensures AllQueryChars(Escape(s, Query))
  {
    if s != "" {
      EscapedQueryChars(s[1..]);
      assert AllQueryChars(EscapeByte(s[0], Query));
    }
  }

  // ---- Queries ----

  datatype Pair = Pair(key: string, value: string)

  predicate QuerySafe(q: string) { forall i :: 0 <= i < |q| ==> QueryChar(q[i]) || q[i] == '=' || q[i] == '&' }

  function EncodePair(p: Pair): string { Escape(p.key, Query) + "=" + Escape(p.value, Query) }

  function EncodePairs(ps: seq<Pair>): (r: seq<string>)
    ensures |r| == |ps|
  {
    seq(|ps|, i requires 0 <= i < |ps| => EncodePair(ps[i]))
  }

  /** url.Values.Encode over the pairs in the given order. */
  function EncodeQuery(ps: seq<Pair>): string { Join(EncodePairs(ps), '&') }

  function ParsePair(piece: string): Option<Pair> {
    if ';' in piece || piece == "" then None
    else
      var i := IndexByte(piece, '=');
      var k := Unescape(piece[..i], true);
      var v := Unescape(if i < |piece| then piece[i + 1..] else "", true);
      if k.Some? && v.Some? then Some(Pair(k.value, v.value)) else None
  }

  function ParsePairs(pieces: seq<string>): seq<Pair> {
    if pieces == [] then []
    else (match ParsePair(pieces[0]) case Some(p) => [p] case None => []) + ParsePairs(pieces[1..])
  }

  /** url.ParseQuery, pairs in order of appearance; broken ones are passed over. */
  function ParseQuery(q: string): seq<Pair> { ParsePairs(Split(q, '&')) }

  predicate BytePairs(ps: seq<Pair>) { forall i :: 0 <= i < |ps| ==> IsBytes(ps[i].key) && IsBytes(ps[i].value) }

  lemma EncodedPairChars(p: Pair)
    ensures forall c :: c in EncodePair(p) ==> QueryChar(c) || c == '='
    ensures '&' !in EncodePair(p) && ';' !in EncodePair(p) && EncodePair(p) != ""
  {
    EscapedQueryChars(p.key);
    EscapedQueryChars(p.value);
    var k, v := Escape(p.key, Query), Escape(p.value, Query);
    assert EncodePair(p) == k + "=" + v;
  }

  lemma EncodedPairCut(p: Pair)
    ensures var e := EncodePair(p);
            var i := IndexByte(e, '=');
            i < |e| && e[..i] == Escape(p.key, Query) && e[i + 1..] == Escape(p.value, Query)
  {
    EscapedQueryChars(p.key);
    IndexByteAt(Escape(p.key, Query), '=', Escape(p.value, Query));
    assert EncodePair(p) == Escape(p.key, Query) + ['='] + Escape(p.value, Query);
  }

  lemma EncodedPair(p: Pair)
    requires IsBytes(p.key) && IsBytes(p.value)
    ensures ParsePair(EncodePair(p)) == Some(p)
  {
    EncodedPairChars(p);
    EncodedPairCut(p);
    QueryRoundTrip(p.key);
    QueryRoundTrip(p.value);
  }

  lemma {:induction false} ParseEncodedPieces(ps: seq<Pair>)
    requires BytePairs(ps)
    ensures ParsePairs(EncodePairs(ps)) == ps
  {
    if ps != [] {
      EncodedPair(ps[0]);
      ParseEncodedPieces(ps[1..]);
      assert EncodePairs(ps)[1..] == EncodePairs(ps[1..]);
    }
  }

  lemma SplitEncodedQuery(ps: seq<Pair>)
    requires BytePairs(ps) && ps != []
    ensures Split(EncodeQuery(ps), '&') == EncodePairs(ps)
  {
    forall i | 0 <= i < |ps|
      ensures '&' !in EncodePairs(ps)[i]
    {
      EncodedPairChars(ps[i]);
    }
    SplitJoin(EncodePairs(ps), '&');
  }

  /** Reading a query back gives the pairs that were written, in order. */
  lemma QueryPairsRoundTrip(ps: seq<Pair>)
    requires BytePairs(ps)
    ensures ParseQuery(EncodeQuery(ps)) == ps
  {
    if ps == [] {
      assert ParsePairs([""]) == [] by {
        assert [""][1..] == [];
      }
    } else {
      SplitEncodedQuery(ps);
      ParseEncodedPieces(ps);
    }
  }

  lemma {:induction false} EncodedQueryChars(ps: seq<Pair>)
    ensures QuerySafe(EncodeQuery(ps))
    ensures ps != [] ==> EncodeQuery(ps) != ""
  {
    if ps != [] {
      EncodedPairChars(ps[0]);
      assert EncodePairs(ps)[0] == EncodePair(ps[0]);
      if |ps| > 1 {
        EncodedQueryChars(ps[1..]);
        assert EncodePairs(ps)[1..] == EncodePairs(ps[1..]);
      }
    }
  }

  // ---- URLs ----

  /** The cut-up URL: userinfo still escaped, the fragment not. */
  datatype Parts = Parts(scheme: string, user: Option<string>, hostname: string, port: string,
                         rawQuery: string, fragment: string)

  predicate IsLetter(c: char) { 'A' <= c <= 'Z' || 'a' <= c <= 'z' }

  predicate ValidScheme(s: string) {
    s != "" && IsLetter(s[0]) && forall i :: 0 <= i < |s| ==> IsAlnum(s[i]) || s[i] in "+-."
  }

  predicate IsControl(c: char) { c as int < 0x20 || c as int == 0x7F }

  /** What may stand in a host without an escape. Escapes in hosts are not modelled. */
  predicate HostChar(c: char) {
    || Unreserved(c) || c == '!' || c == '$' || '&' <= c <= ',' || ':' <= c <= '>'
    || c == '[' || c == ']' || c == '"' || c as int >= 128
  }

  predicate AllHostChars(s: string) { forall i :: 0 <= i < |s| ==> HostChar(s[i]) }

  predicate UserChar(c: char) {
    Unreserved(c) || c == '!' || '$' <= c <= ',' || c == ':' || c == ';' || c == '=' || c == '@'
  }

  predicate AllUserChars(s: string) { forall i :: 0 <= i < |s| ==> UserChar(s[i]) }

  predicate ValidOptionalPort(s: string) { s == "" || (s[0] == ':' && AllDigits(s[1..])) }

  datatype HostPortParts = HostPortParts(hostname: string, port: string)

  /** parseHost, Hostname and Port: a bracketed address or a name, and an optional port. */
  function SplitHostPort(h: string): Option<HostPortParts> {
    if !AllHostChars(h) then None
    else if h != "" && h[0] == '[' then SplitAtBracket(h, LastIndexByte(h, ']'))
    else SplitAtColon(h, IndexByte(h, ':'))
  }

  function SplitAtBracket(h: string, close: int): Option<HostPortParts>
    requires close < |h| && (close >= 0 ==> h[0] != h[close])
  {
    if close < 0 || !ValidOptionalPort(h[close + 1..]) then None
    else Some(HostPortParts(h[1..close], if close + 1 < |h| then h[close + 2..] else ""))
  }

  function SplitAtColon(h: string, colon: nat): Option<HostPortParts>
    requires colon <= |h|
  {
    if !ValidOptionalPort(h[colon..]) then None
    else Some(HostPortParts(h[..colon], if colon < |h| then h[colon + 1..] else ""))
  }

  function CutAt(s: string, c: char): (string, string) {
    var i := IndexByte(s, c);
    (s[..i], if i < |s| then s[i + 1..] else "")
  }

  /** The authority of a URL: userinfo up to the last '@', then the host. */
  function ParseAuthority(scheme: string, authority: string, query: string, fragment: string): Option<Parts> {
    var at := LastIndexByte(authority, '@');
    var host := SplitHostPort(authority[at + 1..]);
    if host.None? then None
    else if at < 0 then Some(Parts(scheme, None, host.value.hostname, host.value.port, query, fragment))
    else
      var user := authority[..at];
      if !AllUserChars(user) then None
      else Some(Parts(scheme, Some(user), host.value.hostname, host.value.port, query, fragment))
  }

  predicate HasControl(s: string) { exists i :: 0 <= i < |s| && IsControl(s[i]) }

  function ParseHierarchy(scheme: string, hier: string, query: string, fragment: string): Option<Parts> {
    if !ValidScheme(scheme) || !HasPrefix(hier, "//") then None
    else
      var slash := IndexByte(hier[2..], '/');
      if Unescape(hier[2..][slash..], false).None? then None
      else ParseAuthority(Lower(scheme), hier[2..][..slash], query, fragment)
  }

  /** url.Parse on the shape above; relative and opaque references are not modelled. */
  function ParseUrlText(text: string): Option<Parts> {
    var (url, rawFragment) := CutAt(text, '#');
    var fragment := Unescape(rawFragment, false);
    var (scheme, afterScheme) := CutAt(url, ':');
    var (hier, query) := CutAt(afterScheme, '?');
    if fragment.None? || HasControl(url) then None
    else ParseHierarchy(scheme, hier, query, fragment.value)
  }

  // ---- URLs as the printers write them ----

  function PortOrDefault(port: nat): nat { if port == 0 then 443 else port }

  function HostPort(host: string, port: nat): string {
    var h := if ':' in host && !HasPrefix(host, "[") then "[" + host + "]" else host;
    h + ":" + Itoa(PortOrDefault(port))
  }

  predicate IsHex(c: char) { HexValue(c).Some? }

  predicate NameHost(h: string) { h != "" && forall i :: 0 <= i < |h| ==> Unreserved(h[i]) }

  predicate Ipv6Host(h: string) { ':' in h && forall i :: 0 <= i < |h| ==> IsHex(h[i]) || h[i] == ':' || h[i] == '.' }

  /** A name or IPv4 address, or an IPv6 literal without a zone. */
  predicate ValidHost(h: string) { NameHost(h) || Ipv6Host(h) }

  predicate AuthorityChar(c: char) { UserChar(c) || c == '[' || c == ']' }

  predicate AuthorityChars(s: string) { forall i :: 0 <= i < |s| ==> AuthorityChar(s[i]) }

  lemma ValidHostChars(h: string, port: nat)
    requires ValidHost(h)
    ensures AuthorityChars(HostPort(h, port)) && '@' !in HostPort(h, port)
  {
  }

  lemma SplitPrintedName(h: string, digits: string)
    requires NameHost(h) && AllDigits(digits)
    ensures SplitHostPort(h + ":" + digits) == Some(HostPortParts(h, digits))
  {
    var hp := h + [':'] + digits;
    assert AllHostChars(hp);
    IndexByteAt(h, ':', digits);
    assert hp[|h|..] == ":" + digits;
    assert (":" + digits)[1..] == digits;
    assert hp[0] == h[0];
  }

  lemma SplitPrintedIpv6(h: string, digits: string)
    requires Ipv6Host(h) && AllDigits(digits)
    ensures SplitHostPort("[" + h + "]" + ":" + digits) == Some(HostPortParts(h, digits))
  {
    var hp := "[" + h + "]" + ":" + digits;
    BracketedCut(h, digits);
    BracketedChars(h, digits);
    assert (":" + digits)[1..] == digits;
    assert hp[0] == '[';
  }

  lemma BracketedChars(h: string, digits: string)
    requires Ipv6Host(h) && AllDigits(digits)
    ensures AllHostChars("[" + h + "]" + ":" + digits)
  {
    assert forall c :: IsHex(c) || IsDigit(c) ==> HostChar(c);
  }

  lemma BracketedCut(h: string, digits: string)
    requires AllDigits(digits)
    ensures var hp := "[" + h + "]" + ":" + digits;
            && LastIndexByte(hp, ']') == |h| + 1 && hp[1..|h| + 1] == h
            && hp[|h| + 2..] == ":" + digits && hp[|h| + 3..] == digits
  {
    LastIndexByteAt("[" + h, ']', ":" + digits);
    assert "[" + h + "]" + ":" + digits == "[" + h + [']'] + (":" + digits);
  }

  lemma SplitPrintedHost(h: string, port: nat)
    requires ValidHost(h)
    ensures SplitHostPort(HostPort(h, port)) == Some(HostPortParts(h, Itoa(PortOrDefault(port))))
  {
    HostIsBracketed(h, port);
    var digits := Itoa(PortOrDefault(port));
    if Ipv6Host(h) {
      SplitPrintedIpv6(h, digits);
    } else {
      SplitPrintedName(h, digits);
    }
  }

  lemma HostIsBracketed(h: string, port: nat)
    requires ValidHost(h)
    ensures HostPort(h, port) == (if Ipv6Host(h) then "[" + h + "]" else h) + ":" + Itoa(PortOrDefault(port))
  {
    if Ipv6Host(h) {
      assert IsHex(h[0]) || h[0] == ':' || h[0] == '.';
      PrefixStarts(h, "[");
    } else {
      assert Unreserved(':') == false;
      assert ':' !in h;
    }
  }

  function WithUser(user: Option<string>, host: string): string {
    match user case Some(u) => u + "@" + host case None => host
  }

  function Authority(user: Option<string>, host: string, port: nat): string { WithUser(user, HostPort(host, port)) }

  /** A link: empty query and fragment leave no mark; `rawFragment` is escaped already. */
  function PrintUrl(scheme: string, user: Option<string>, host: string, port: nat, query: string,
          rawFragment: string): string {
    scheme + "://" + Authority(user, host, port)
    + (if query == "" then "" else "?" + query)
    + (if rawFragment == "" then "" else "#" + rawFragment)
  }

  predicate LowerLetters(s: string) { s != "" && forall i :: 0 <= i < |s| ==> 'a' <= s[i] <= 'z' }

  lemma PrintedAuthority(scheme: string, user: Option<string>, host: string, port: nat, query: string, fragment: string)
    requires ValidHost(host) && (user.Some? ==> AllUserChars(user.value))
    ensures ParseAuthority(scheme, Authority(user, host, port), query, fragment)
            == Some(Parts(scheme, user, host, Itoa(PortOrDefault(port)), query, fragment))
    ensures AuthorityChars(Authority(user, host, port))
  {
    ValidHostChars(host, port);
    SplitPrintedHost(host, port);
    AuthorityReads(scheme, user, HostPort(host, port), query, fragment);
  }

  lemma AuthorityReads(scheme: string, user: Option<string>, host: string, query: string, fragment: string)
    requires '@' !in host && AuthorityChars(host) && SplitHostPort(host).Some?
            && (user.Some? ==> AllUserChars(user.value))
    ensures var hp := SplitHostPort(host).value;
            ParseAuthority(scheme, WithUser(user, host), query, fragment)
            == Some(Parts(scheme, user, hp.hostname, hp.port, query, fragment))
    ensures AuthorityChars(WithUser(user, host))
  {
    if user.Some? {
      AuthorityWithUser(scheme, user.value, host, query, fragment);
    } else {
      AuthorityWithoutUser(scheme, host, query, fragment);
    }
  }

  lemma AuthorityWithoutUser(scheme: string, host: string, query: string, fragment: string)
    requires '@' !in host && SplitHostPort(host).Some?
    ensures var hp := SplitHostPort(host).value;
            ParseAuthority(scheme, host, query, fragment)
            == Some(Parts(scheme, None, hp.hostname, hp.port, query, fragment))
  {
  }

  lemma AuthorityWithUser(scheme: string, user: string, host: string, query: string, fragment: string)
    requires '@' !in host && SplitHostPort(host).Some? && AllUserChars(user)
    ensures var hp := SplitHostPort(host).value;
            ParseAuthority(scheme, user + "@" + host, query, fragment)
            == Some(Parts(scheme, Some(user), hp.hostname, hp.port, query, fragment))
  {
    LastIndexByteAt(user, '@', host);
  }

  lemma CutAbsent(s: string, c: char)
    requires c !in s
    ensures CutAt(s, c) == (s, "")
  {
    assert s[..|s|] == s;
  }

  lemma CutPresent(a: string, c: char, b: string)
    requires c !in a
    ensures CutAt(a + [c] + b, c) == (a, b)
  {
    IndexByteAt(a, c, b);
  }

  /** Cutting off what may have been put after a mark. */
  lemma CutOptional(a: string, c: char, b: string)
    requires c !in a
    ensures CutAt(a + (if b == "" then "" else [c] + b), c) == (a, b)
  {
    if b == "" {
      assert a + "" == a;
      CutAbsent(a, c);
    } else {
      assert a + ([c] + b) == a + [c] + b;
      CutPresent(a, c, b);
    }
  }

  /** The part of a printed link before its fragment. */
  function PrintHier(scheme: string, auth: string, query: string): string {
    scheme + [':'] + ("//" + auth + (if query == "" then "" else "?" + query))
  }

  lemma PrintedHierChars(scheme: string, auth: string, query: string)
    requires LowerLetters(scheme) && AuthorityChars(auth) && QuerySafe(query)
    ensures '#' !in PrintHier(scheme, auth, query) && !HasControl(PrintHier(scheme, auth, query))
    ensures '?' !in "//" + auth && '/' !in auth && ':' !in scheme
  {
  }

  lemma ParsePrintedHier(scheme: string, auth: string, query: string)
    requires LowerLetters(scheme) && AuthorityChars(auth) && QuerySafe(query)
    ensures CutAt(PrintHier(scheme, auth, query), ':')
            == (scheme, "//" + auth + (if query == "" then "" else "?" + query))
    ensures CutAt("//" + auth + (if query == "" then "" else "?" + query), '?') == ("//" + auth, query)
  {
    PrintedHierChars(scheme, auth, query);
    CutPresent(scheme, ':', "//" + auth + (if query == "" then "" else "?" + query));
    CutOptional("//" + auth, '?', query);
  }

  /** A printed link is cut up again into what it was printed from. */
  lemma ParsePrinted(scheme: string, user: Option<string>, host: string, port: nat, query: string, name: string,
          mode: Mode)
    requires LowerLetters(scheme) && ValidHost(host) && (user.Some? ==> AllUserChars(user.value)) && QuerySafe(query)
    requires IsBytes(name) && mode != Query
    ensures ParseUrlText(PrintUrl(scheme, user, host, port, query, Escape(name, mode)))
            == Some(Parts(scheme, user, host, Itoa(PortOrDefault(port)), query, name))
  {
    var frag, auth := Escape(name, mode), Authority(user, host, port);
    var url := PrintHier(scheme, auth, query);
    PrintedAuthority(scheme, user, host, port, query, name);
    PathRoundTrip(name, mode);
    PrintedHierChars(scheme, auth, query);
    ParsePrintedHier(scheme, auth, query);
    CutOptional(url, '#', frag);
    PrintUrlCut(scheme, user, host, port, query, frag);
    ParseHier(scheme, auth, query, name);
    LowerLettersLower(scheme);
    AssembleUrl(PrintUrl(scheme, user, host, port, query, frag), url, frag, name, scheme,
                "//" + auth + (if query == "" then "" else "?" + query), "//" + auth, query);
  }

  lemma PrintUrlCut(scheme: string, user: Option<string>, host: string, port: nat, query: string, frag: string)
    ensures PrintUrl(scheme, user, host, port, query, frag)
            == PrintHier(scheme, Authority(user, host, port), query) + (if frag == "" then "" else ['#'] + frag)
  {
  }

  lemma LowerLettersLower(s: string)
    requires LowerLetters(s)
    ensures Lower(s) == s
  {
  }

  lemma AssembleUrl(text: string, url: string, frag: string, name: string, scheme: string, afterScheme: string,
          hier: string, query: string)
    requires CutAt(text, '#') == (url, frag) && CutAt(url, ':') == (scheme, afterScheme)
    requires CutAt(afterScheme, '?') == (hier, query)
    requires Unescape(frag, false) == Some(name) && !HasControl(url)
    ensures ParseUrlText(text) == ParseHierarchy(scheme, hier, query, name)
  {
  }

  lemma ParseHier(scheme: string, auth: string, query: string, fragment: string)
    requires '/' !in auth && LowerLetters(scheme)
    ensures ParseHierarchy(scheme, "//" + auth, query, fragment) == ParseAuthority(Lower(scheme), auth, query, fragment)
  {
    assert ("//" + auth)[2..] == auth;
    assert auth[|auth|..] == "" && auth[..|auth|] == auth;
    assert IsLetter(scheme[0]);
  }
}
