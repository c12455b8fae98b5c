/**
 Share links as the per-protocol parsers see them (xray2sing/ray2sing/url_schema.go): a URL
 with its query as a map of normalised keys, the base64 userinfo of ss:// links opened, and
 the key-like parameters read again so that a raw '+' in them stays a '+'.
 */
module ShareUrl {
  import opened Common
  import opened GoStrings
  import opened Urls
  import Keys
  import Base64

  type Params = map<string, string>

  // ---- Parameters ----

  function NormChar(c: char): char { if c == '_' || c == '-' then ' ' else LowerChar(c) }

  /** normalizeStr */
  function Norm(s: string): (r: string) {
    var t := TrimSpace(s);
    seq(|t|, i requires 0 <= i < |t| => NormChar(t[i]))
  }

  function ValuesOf(ps: seq<Pair>, key: string): seq<string> {
    if ps == [] then []
    else (if ps[0].key == key then [ps[0].value] else []) + ValuesOf(ps[1..], key)
  }

  /** The map filled key by key; `keys` is the order in which Go visits the parsed query. */
  function ParamsIn(keys: seq<string>, ps: seq<Pair>): Params {
    if keys == [] then map[]
    else
      var k := keys[|keys| - 1];
      ParamsIn(keys[..|keys| - 1], ps)[Norm(k) := Join(ValuesOf(ps, k), ',')]
  }

  method FillParams(keys: seq<string>, ps: seq<Pair>) returns (params: Params)
    ensures params == ParamsIn(keys, ps)
  {
    params := map[];
    for i := 0 to |keys|
      invariant params == ParamsIn(keys[..i], ps)
    {
      assert keys[..i + 1][..i] == keys[..i];
      params := params[Norm(keys[i]) := Join(ValuesOf(ps, keys[i]), ',')];
    }
    assert keys[..|keys|] == keys;
  }

  /** Parameters whose value is base64 text, where '+' is a digit and a blank never legal. */
  const RAW_KEYS: set<string> := {"pbk", "sid", "spx", "publickey", "peerpublickey", "pub", "peerpub",
                                  "presharedkey", "psk", "privatekey", "pk"}

  function PathUnescapeOrSelf(s: string): string { match Unescape(s, false) case Some(t) => t case None => s }

  function OverrideOne(params: Params, piece: string): Params {
    var eq := IndexByte(piece, '=');
    if eq == |piece| then params
    else
      var key := Norm(PathUnescapeOrSelf(piece[..eq]));
      if key in RAW_KEYS then params[key := PathUnescapeOrSelf(piece[eq + 1..])] else params
  }

  function Override(params: Params, pieces: seq<string>): Params {
    if pieces == [] then params
    else OverrideOne(Override(params, pieces[..|pieces| - 1]), pieces[|pieces| - 1])
  }

  method OverrideRawQueryParams(params: Params, rawQuery: string) returns (r: Params)
    ensures r == Override(params, Split(rawQuery, '&'))
  {
    r := params;
    var pieces := Split(rawQuery, '&');
    if rawQuery == "" {
      assert pieces[..0] == [];
      return;
    }
    for i := 0 to |pieces|
      invariant r == Override(params, pieces[..i])
    {
      assert pieces[..i + 1][..i] == pieces[..i];
      r := OverridePiece(r, pieces[i]);
    }
    assert pieces[..|pieces|] == pieces;
  }

  method OverridePiece(params: Params, piece: string) returns (r: Params)
    ensures r == OverrideOne(params, piece)
  {
    r := params;
    if piece == "" {
      return;
    }
    var eq := IndexByte(piece, '=');
    if eq == |piece| {
      return;
    }
    var key := Norm(PathUnescapeOrSelf(piece[..eq]));
    if key in RAW_KEYS {
      r := r[key := PathUnescapeOrSelf(piece[eq + 1..])];
    }
  }

  /** getOneOfN with the empty default: the first of the names that is there. */
  function OneOf(params: Params, names: seq<string>): string {
    if names == [] then ""
    else if Norm(names[0]) in params then params[Norm(names[0])]
    else OneOf(params, names[1..])
  }

  predicate PlainKey(k: string) { k != "" && forall i :: 0 <= i < |k| ==> 'a' <= k[i] <= 'z' || IsDigit(k[i]) }

  lemma PlainKeyIsNormal(k: string)
    requires PlainKey(k)
    ensures Norm(k) == k && IsBytes(k) && ' ' !in k
  {
  }

  /** The first of the names that is there, none of them normalised. */
  function FirstOf(params: Params, names: seq<string>): string {
    if names == [] then "" else if names[0] in params then params[names[0]] else FirstOf(params, names[1..])
  }

  lemma {:induction false} OneOfPlainNames(params: Params, names: seq<string>)
    requires forall i :: 0 <= i < |names| ==> PlainKey(names[i])
    ensures OneOf(params, names) == FirstOf(params, names)
  {
    if names != [] {
      PlainKeyIsNormal(names[0]);
      OneOfPlainNames(params, names[1..]);
    }
  }

  // ---- Printable text ----

  predicate Continues(c: char) { 0x80 <= c as int < 0xC0 }

  /** The length of the UTF-8 sequence that starts the text, or 0. */
  function RuneLength(s: string): (n: nat)
    requires s != ""
    ensures n <= |s|
  {
    var c := s[0] as int;
    if c < 0x80 then 1
    else if |s| < 2 || !Continues(s[1]) then 0
    else if 0xC2 <= c < 0xE0 then 2
    else if |s| < 3 || !Continues(s[2]) then 0
    else if 0xE0 <= c < 0xF0 then
      if (c == 0xE0 && s[1] as int < 0xA0) || (c == 0xED && s[1] as int >= 0xA0) then 0 else 3
    else if |s| < 4 || !Continues(s[3]) then 0
    else if 0xF0 <= c < 0xF5 then
      if (c == 0xF0 && s[1] as int < 0x90) || (c == 0xF4 && s[1] as int >= 0x90) then 0 else 4
    else 0
  }

  predicate ValidUtf8(s: string)
    decreases |s|
  {
    s == "" || (RuneLength(s) > 0 && ValidUtf8(s[RuneLength(s)..]))
  }

  predicate IsPrintableChar(c: char) { (c as int >= 0x20 || c == '\t') && c as int != 0x7F }

  predicate IsPrintableText(s: string) { ValidUtf8(s) && forall i :: 0 <= i < |s| ==> IsPrintableChar(s[i]) }

  predicate IsBase64Char(c: char) { IsAlnum(c) || c == '+' || c == '/' || c == '=' || c == '_' || c == '-' }

  predicate IsBase64CharsOnly(s: string) { s != "" && forall i :: 0 <= i < |s| ==> IsBase64Char(s[i]) }

  // ---- ParseUrl ----

  datatype UrlSchema = UrlSchema(scheme: string, username: string, password: string, hostname: string,
                                 port: nat, name: string, params: Params)

  datatype Credentials = Credentials(username: string, password: string)

  /** url.Userinfo: name and password around the first ':', both unescaped. */
  function ParseUserinfo(user: Option<string>): Option<Credentials> {
    match user
    case None => Some(Credentials("", ""))
    case Some(text) =>
      var (name, password) := CutAt(text, ':');
      match (Unescape(name, false), Unescape(password, false))
      case (Some(n), Some(p)) => Some(Credentials(n, p))
      case _ => None
  }

  /** The base64 "method:password" userinfo of an ss:// link, split at its first ':'. */
  function OpenUserinfo(scheme: string, c: Credentials): Credentials {
    if scheme != "ss" || !IsBase64CharsOnly(c.username) then c
    else
      match Keys.DecodeFaultTolerant(c.username)
      case None => c
      case Some(text) =>
        if ':' in text && IsPrintableText(text) then
          var (method_, password) := CutAt(text, ':');
          Credentials(method_, password)
        else c
  }

  const PORT_LIMIT: nat := 0x1_0000

  function PortOr(port: string, default: nat): nat {
    match ParseUint(port, PORT_LIMIT) case Some(p) => p case None => default
  }

  /** What ParseUrl makes of a link; None stands for its error. */
  function UrlOf(text: string, defaultPort: nat, keys: seq<string>): Option<UrlSchema> {
    match ParseUrlText(text)
    case None => None
    case Some(u) =>
      match ParseUserinfo(u.user)
      case None => None
      case Some(given) =>
        var c := OpenUserinfo(u.scheme, given);
        var params := Override(ParamsIn(keys, ParseQuery(u.rawQuery)), Split(u.rawQuery, '&'));
        Some(UrlSchema(u.scheme, c.username, c.password, u.hostname, PortOr(u.port, defaultPort), u.fragment, params))
  }

  /** The keys that the loop over the parsed query visits: each key of the query once. */
  ghost predicate VisitsQuery(text: string, keys: seq<string>) {
    match ParseUrlText(text)
    case None => true
    case Some(u) =>
      && (forall i, j :: 0 <= i < j < |keys| ==> keys[i] != keys[j])
      && (forall k :: k in keys <==> ValuesOf(ParseQuery(u.rawQuery), k) != [])
  }

  method ParseUrl(text: string, defaultPort: nat, keys: seq<string>) returns (r: Option<UrlSchema>)
    requires VisitsQuery(text, keys)
    ensures r == UrlOf(text, defaultPort, keys)
  {
    var parsed := ParseUrlText(text);
    if parsed.None? {
      return None;
    }
    var u := parsed.value;
    var given := ParseUserinfo(u.user);
    if given.None? {
      return None;
    }
    var c := OpenUserinfo(u.scheme, given.value);
    var params := FillParams(keys, ParseQuery(u.rawQuery));
    params := OverrideRawQueryParams(params, u.rawQuery);
    r := Some(UrlSchema(u.scheme, c.username, c.password, u.hostname, PortOr(u.port, defaultPort), u.fragment, params));
  }

  lemma {:induction false} VisitedKeysStay(keys: seq<string>, ps: seq<Pair>, k: string)
    requires k in keys
    ensures Norm(k) in ParamsIn(keys, ps)
  {
    var n := |keys| - 1;
    if k != keys[n] {
      assert keys == keys[..n] + [keys[n]];
      VisitedKeysStay(keys[..n], ps, k);
    }
  }

  lemma {:induction false} OverrideKeepsKeys(params: Params, pieces: seq<string>)
    ensures params.Keys <= Override(params, pieces).Keys
  {
    if pieces != [] {
      OverrideKeepsKeys(params, pieces[..|pieces| - 1]);
    }
  }

  /** Every key of the query is a parameter, under its normal form. */
  lemma NoKeyIsDropped(text: string, defaultPort: nat, keys: seq<string>, k: string)
    requires VisitsQuery(text, keys) && UrlOf(text, defaultPort, keys).Some?
    requires ValuesOf(ParseQuery(ParseUrlText(text).value.rawQuery), k) != []
    ensures Norm(k) in UrlOf(text, defaultPort, keys).value.params
  {
    var q := ParseUrlText(text).value.rawQuery;
    VisitedKeysStay(keys, ParseQuery(q), k);
    OverrideKeepsKeys(ParamsIn(keys, ParseQuery(q)), Split(q, '&'));
  }

  // ---- A map printed as a query is read back ----

  /** `keys` names every key of the map once: an order to print them in, or to visit them. */
  ghost predicate Lists(keys: seq<string>, m: Params) {
    && (forall i, j :: 0 <= i < j < |keys| ==> keys[i] != keys[j])
    && (forall k :: k in keys <==> k in m)
  }

  /** There is such an order for every map. */
  lemma {:induction false} EveryMapIsListed(m: Params) returns (keys: seq<string>)
    ensures Lists(keys, m)
    decreases |m|
  {
    if m == map[] {
      keys := [];
    } else {
      var k :| k in m;
      var rest := EveryMapIsListed(m - {k});
      keys := [k] + rest;
      AddedKeyIsListed(rest, m, k);
    }
  }

  lemma AddedKeyIsListed(rest: seq<string>, m: Params, k: string)
    requires k in m && Lists(rest, m - {k})
    ensures Lists([k] + rest, m)
  {
    assert forall i :: 0 <= i < |rest| ==> rest[i] in rest;
  }

  function PairsIn(order: seq<string>, q: Params): (ps: seq<Pair>)
    requires forall k :: k in order ==> k in q
    ensures |ps| == |order|
  {
    seq(|order|, i requires 0 <= i < |order| => Pair(order[i], q[order[i]]))
  }

  /** Keys in their normal form, and no blank in a value that is read in the raw style. */
  predicate CanonicalPair(k: string, v: string) {
    IsBytes(k) && IsBytes(v) && Norm(k) == k && (k in RAW_KEYS ==> ' ' !in k && ' ' !in v)
  }

  predicate Canonical(q: Params) { forall k :: k in q ==> CanonicalPair(k, q[k]) }

  /** No blank in a value whose key means a parameter that is read in the raw style. */
  predicate SpelledPair(k: string, v: string) { IsBytes(k) && IsBytes(v) && (Norm(k) in RAW_KEYS ==> ' ' !in v) }

  /** `r` spells `q`: the same values, each key under some spelling of its own. */
  ghost predicate Spelling(r: Params, q: Params) {
    && (forall k :: k in r ==> SpelledPair(k, r[k]) && Norm(k) in q && q[Norm(k)] == r[k])
    && (forall n :: n in q ==> exists k :: k in r && Norm(k) == n)
    && (forall k, l :: k in r && l in r && Norm(k) == Norm(l) ==> k == l)
  }

  lemma CanonicalSpellsItself(q: Params)
    requires Canonical(q)
    ensures Spelling(q, q)
  {
    forall k | k in q
      ensures SpelledPair(k, q[k]) && Norm(k) == k
    {
      assert CanonicalPair(k, q[k]);
    }
  }

  lemma {:induction false} ValueOfKey(order: seq<string>, q: Params, k: string)
    requires forall k :: k in order ==> k in q
    requires forall i, j :: 0 <= i < j < |order| ==> order[i] != order[j]
    ensures ValuesOf(PairsIn(order, q), k) == if k in order then [q[k]] else []
    decreases |order|
  {
    if order != [] {
      ValueOfKey(order[1..], q, k);
      assert PairsIn(order, q)[1..] == PairsIn(order[1..], q);
      assert order == [order[0]] + order[1..];
    }
  }

  /** The map has exactly the listed keys, in their normal form, with the values of the printed
      map. */
  ghost predicate FilledWith(m: Params, keys: seq<string>, r: Params)
    requires forall k :: k in keys ==> k in r
  {
    FilledBy(m, keys, r, Norm)
  }

  ghost predicate FilledBy(m: Params, keys: seq<string>, r: Params, f: string -> string)
    requires forall k :: k in keys ==> k in r
  {
    && (forall n :: n in m <==> exists k :: k in keys && f(k) == n)
    && (forall k :: k in keys ==> f(k) in m && m[f(k)] == r[k])
  }

  ghost predicate Apart(r: Params) { forall k, l :: k in r && l in r && Norm(k) == Norm(l) ==> k == l }

  lemma {:induction false} FilledParams(keys: seq<string>, order: seq<string>, r: Params)
    requires Lists(order, r) && Apart(r)
    requires forall k :: k in keys ==> k in r
    ensures FilledWith(ParamsIn(keys, PairsIn(order, r)), keys, r)
    decreases |keys|
  {
    if keys != [] {
      var n := |keys| - 1;
      FilledParams(keys[..n], order, r);
      OneMoreKey(ParamsIn(keys[..n], PairsIn(order, r)), keys[..n], keys[n], order, r);
      assert keys == keys[..n] + [keys[n]];
    }
  }

  lemma OneMoreKey(m: Params, keys: seq<string>, key: string, order: seq<string>, r: Params)
    requires Lists(order, r) && Apart(r) && key in r && (forall k :: k in keys ==> k in r) && FilledWith(m, keys, r)
    ensures FilledWith(m[Norm(key) := Join(ValuesOf(PairsIn(order, r), key), ',')], keys + [key], r)
  {
    ValueOfKey(order, r, key);
    assert key in order;
    FilledStep(m, keys, key, r, Norm);
  }

  /** The step, for any way to bring keys to a normal form. */
  lemma FilledStep(m: Params, keys: seq<string>, key: string, r: Params, f: string -> string)
    requires forall k, l :: k in r && l in r && f(k) == f(l) ==> k == l
    requires key in r && (forall k :: k in keys ==> k in r)
    requires FilledBy(m, keys, r, f)
    ensures FilledBy(m[f(key) := r[key]], keys + [key], r, f)
  {
    var m', more := m[f(key) := r[key]], keys + [key];
    forall n
      ensures n in m' <==> exists k :: k in more && f(k) == n
    {
      if n == f(key) {
        assert key in more;
      } else if n in m {
        var k :| k in keys && f(k) == n;
        assert k in more;
      }
    }
  }

  lemma OverrideKeeps(q: Params, k: string, v: string)
    requires SpelledPair(k, v) && Norm(k) in q && q[Norm(k)] == v
    ensures OverrideOne(q, EncodePair(Pair(k, v))) == q
  {
    EncodedPairCut(Pair(k, v));
    QueryRoundTrip(k);
    QueryRoundTrip(v);
    if ' ' in k {
      UnescapeEscape(k, Query, false);
      SpacedKeysAreNotRaw(k);
    }
  }

  /** A key with a blank is not one of the raw keys once it is read in the raw style. */
  lemma SpacedKeysAreNotRaw(k: string)
    requires ' ' in k
    ensures Norm(ReadBytes(k, Query, false)) !in RAW_KEYS
  {
    var r := ReadBytes(k, Query, false);
    var i :| 0 <= i < |k| && k[i] == ' ';
    assert r[i] == '+';
    Keys.TrimKeeps(r, '+');
    var t := TrimSpace(r);
    var j :| 0 <= j < |t| && t[j] == '+';
    assert Norm(r)[j] == '+';
  }

  lemma {:induction false} OverrideKeepsAll(q: Params, r: Params, order: seq<string>)
    requires forall k :: k in order ==> k in r && SpelledPair(k, r[k]) && Norm(k) in q && q[Norm(k)] == r[k]
    ensures Override(q, EncodePairs(PairsIn(order, r))) == q
    decreases |order|
  {
    if order != [] {
      var n := |order| - 1;
      var pieces := EncodePairs(PairsIn(order, r));
      OverrideKeepsAll(q, r, order[..n]);
      assert pieces[..n] == EncodePairs(PairsIn(order[..n], r));
      OverrideKeeps(q, order[n], r[order[n]]);
    }
  }

  /** In whatever order a query is printed and its keys are visited, and in whatever spelling its
      keys are printed, it is read back as the map of the keys in their normal form. */
  lemma SpelledQueryRoundTrip(r: Params, q: Params, order: seq<string>, keys: seq<string>)
    requires Spelling(r, q) && Lists(order, r) && Lists(keys, r)
    ensures var text := EncodeQuery(PairsIn(order, r));
            Override(ParamsIn(keys, ParseQuery(text)), Split(text, '&')) == q
    ensures QuerySafe(EncodeQuery(PairsIn(order, r)))
  {
    var ps := PairsIn(order, r);
    PairsAreBytes(order, r);
    QueryPairsRoundTrip(ps);
    EncodedQueryChars(ps);
    FilledParams(keys, order, r);
    FilledIsSame(ParamsIn(keys, ParseQuery(EncodeQuery(ps))), keys, r, q);
    OverridePrinted(order, r, q);
  }

  lemma QueryMapRoundTrip(q: Params, order: seq<string>, keys: seq<string>)
    requires Canonical(q) && Lists(order, q) && Lists(keys, q)
    ensures var text := EncodeQuery(PairsIn(order, q));
            Override(ParamsIn(keys, ParseQuery(text)), Split(text, '&')) == q
    ensures QuerySafe(EncodeQuery(PairsIn(order, q)))
  {
    CanonicalSpellsItself(q);
    SpelledQueryRoundTrip(q, q, order, keys);
  }

  lemma PairsAreBytes(order: seq<string>, r: Params)
    requires (forall k :: k in r ==> SpelledPair(k, r[k])) && forall k :: k in order ==> k in r
    ensures BytePairs(PairsIn(order, r))
  {
  }

  lemma FilledIsSame(m: Params, keys: seq<string>, r: Params, q: Params)
    requires Spelling(r, q) && Lists(keys, r) && FilledWith(m, keys, r)
    ensures m == q
  {
    forall n
      ensures n in m <==> n in q
    {
      if n in q {
        var k :| k in r && Norm(k) == n;
        assert k in keys;
      }
    }
    forall n | n in q
      ensures m[n] == q[n]
    {
      var k :| k in r && Norm(k) == n;
      assert k in keys;
    }
  }

  lemma OverridePrinted(order: seq<string>, r: Params, q: Params)
    requires Spelling(r, q) && forall k :: k in order ==> k in r
    ensures Override(q, Split(EncodeQuery(PairsIn(order, r)), '&')) == q
  {
    if order == [] {
      assert Split("", '&')[..0] == [];
      assert Override(q, []) == q;
    } else {
      PairsAreBytes(order, r);
      SplitEncodedQuery(PairsIn(order, r));
      OverrideKeepsAll(q, r, order);
    }
  }

  // ---- A printed link is read back ----

  lemma UrlOfParts(text: string, u: Parts, given: Credentials, default: nat, keys: seq<string>, params: Params)
    requires ParseUrlText(text) == Some(u) && ParseUserinfo(u.user) == Some(given)
    requires Override(ParamsIn(keys, ParseQuery(u.rawQuery)), Split(u.rawQuery, '&')) == params
    ensures var c := OpenUserinfo(u.scheme, given);
            var port := PortOr(u.port, default);
            UrlOf(text, default, keys)
            == Some(UrlSchema(u.scheme, c.username, c.password, u.hostname, port, u.fragment, params))
  {
  }

  /** A printed link is read back, whatever the spelling of its keys. */
  lemma ParseSpelledLink(scheme: string, user: Option<string>, given: Credentials, host: string, port: nat, r: Params,
          q: Params, order: seq<string>, keys: seq<string>, name: string, mode: Mode, default: nat)
    requires LowerLetters(scheme) && (user.Some? ==> AllUserChars(user.value)) && ParseUserinfo(user) == Some(given)
    requires ValidHost(host) && port < PORT_LIMIT && IsBytes(name) && mode != Query
    requires Spelling(r, q) && Lists(order, r) && Lists(keys, r)
    ensures var c := OpenUserinfo(scheme, given);
            UrlOf(PrintUrl(scheme, user, host, port, EncodeQuery(PairsIn(order, r)), Escape(name, mode)), default, keys)
            == Some(UrlSchema(scheme, c.username, c.password, host, PortOrDefault(port), name, q))
  {
    var query := EncodeQuery(PairsIn(order, r));
    SpelledQueryRoundTrip(r, q, order, keys);
    ParsePrinted(scheme, user, host, port, query, name, mode);
    NumbersReadBack(PortOrDefault(port));
    UrlOfParts(PrintUrl(scheme, user, host, port, query, Escape(name, mode)),
               Parts(scheme, user, host, Itoa(PortOrDefault(port)), query, name), given, default, keys, q);
  }

  lemma ParsePrintedLink(scheme: string, user: Option<string>, given: Credentials, host: string, port: nat, q: Params,
                         order: seq<string>, keys: seq<string>, name: string, mode: Mode, default: nat)
    requires LowerLetters(scheme) && (user.Some? ==> AllUserChars(user.value)) && ParseUserinfo(user) == Some(given)
    requires ValidHost(host) && port < PORT_LIMIT && IsBytes(name) && mode != Query
    requires Canonical(q) && Lists(order, q) && Lists(keys, q)
    ensures var c := OpenUserinfo(scheme, given);
            UrlOf(PrintUrl(scheme, user, host, port, EncodeQuery(PairsIn(order, q)), Escape(name, mode)), default, keys)
            == Some(UrlSchema(scheme, c.username, c.password, host, PortOrDefault(port), name, q))
  {
    CanonicalSpellsItself(q);
    ParseSpelledLink(scheme, user, given, host, port, q, q, order, keys, name, mode, default);
  }

  // ---- Spellings and repetitions of a key ----

  /** A key means the same in any case, with white space around it, and with '_' or '-' where
      another spelling has a blank. */
  lemma NormalForm(a: string, b: string, pre: string, post: string)
    requires Blank(pre) && Blank(post) && Trimmed(a) && |a| == |b|
    requires forall i :: 0 <= i < |a| ==>
               b[i] == if a[i] == '_' || a[i] == '-' then ' '
                       else if 'A' <= a[i] <= 'Z' then (a[i] as int + 32) as char else a[i]
    ensures Norm(pre + a + post) == b
  {
    TrimSpaceAround(pre, a, post);
  }

  /** The values of one key, in the order of the query. */
  function Of(ps: seq<Pair>, key: string): seq<string> {
    if ps == [] then []
    else
      var n := |ps| - 1;
      Of(ps[..n], key) + if ps[n].key == key then [ps[n].value] else []
  }

  lemma {:induction false} ValuesAreOf(ps: seq<Pair>, key: string)
    ensures ValuesOf(ps, key) == Of(ps, key)
  {
    if ps != [] {
      var front, last := ps[..|ps| - 1], ps[|ps| - 1];
      ValuesAreOf(front, key);
      ValuesOfAppend(front, [last], key);
      assert ps == front + [last];
    }
  }

  lemma ValuesStep(p: Pair, rest: seq<Pair>, key: string)
    ensures ValuesOf([p], key) == if p.key == key then [p.value] else []
    ensures ValuesOf([p] + rest, key) == ValuesOf([p], key) + ValuesOf(rest, key)
  {
    assert [p][1..] == [] && ([p] + rest)[1..] == rest;
  }

  lemma {:induction false} ValuesOfAppend(a: seq<Pair>, b: seq<Pair>, key: string)
    ensures ValuesOf(a + b, key) == ValuesOf(a, key) + ValuesOf(b, key)
  {
    if a == [] {
      assert a + b == b;
    } else {
      var p, rest := a[0], a[1..];
      calc {
        ValuesOf(a + b, key);
        { assert a + b == [p] + (rest + b); ValuesStep(p, rest + b, key); }
        ValuesOf([p], key) + ValuesOf(rest + b, key);
        { ValuesOfAppend(rest, b, key); }
        ValuesOf([p], key) + (ValuesOf(rest, key) + ValuesOf(b, key));
        (ValuesOf([p], key) + ValuesOf(rest, key)) + ValuesOf(b, key);
        { assert a == [p] + rest; ValuesStep(p, rest, key); }
        ValuesOf(a, key) + ValuesOf(b, key);
      }
    }
  }

  lemma {:induction false} JoinedParam(keys: seq<string>, ps: seq<Pair>, k: string)
    requires k in keys && forall l :: l in keys && Norm(l) == Norm(k) ==> l == k
    ensures Norm(k) in ParamsIn(keys, ps) && ParamsIn(keys, ps)[Norm(k)] == Join(Of(ps, k), ',')
  {
    ValuesAreOf(ps, k);
    var n := |keys| - 1;
    if keys[n] != k {
      assert keys == keys[..n] + [keys[n]];
      assert Norm(keys[n]) != Norm(k);
      JoinedParam(keys[..n], ps, k);
    }
  }

  lemma {:induction false} OverrideKeepsOthers(params: Params, pieces: seq<string>, n: string)
    requires n in params && n !in RAW_KEYS
    ensures n in Override(params, pieces) && Override(params, pieces)[n] == params[n]
  {
    if pieces != [] {
      OverrideKeepsOthers(params, pieces[..|pieces| - 1], n);
    }
  }

  /** A key that stands several times in a query: its values joined by commas, in order. */
  lemma RepeatedKeysAreJoined(ps: seq<Pair>, keys: seq<string>, k: string)
    requires ps != [] && BytePairs(ps) && k in keys && Norm(k) !in RAW_KEYS
    requires forall l :: l in keys && Norm(l) == Norm(k) ==> l == k
    ensures var text := EncodeQuery(ps);
            var params := Override(ParamsIn(keys, ParseQuery(text)), Split(text, '&'));
            Norm(k) in params && params[Norm(k)] == Join(Of(ps, k), ',')
  {
    QueryPairsRoundTrip(ps);
    JoinedParam(keys, ps, k);
    OverrideKeepsOthers(ParamsIn(keys, ps), Split(EncodeQuery(ps), '&'), Norm(k));
  }

  // ---- A '+' in a key ----

  /** The parameters that hold a key, or a text that is read like one. */
  predicate KeyParameter(k: string) {
    || k == "pbk" || k == "sid" || k == "spx" || k == "publickey" || k == "peerpublickey" || k == "pub"
    || k == "peerpub" || k == "presharedkey" || k == "psk" || k == "privatekey" || k == "pk"
  }

  lemma KeyParametersAreRaw(k: string)
    ensures KeyParameter(k) <==> k in RAW_KEYS
  {
  }

  lemma KeyParameterIsPlain(k: string)
    requires KeyParameter(k)
    ensures PlainKey(k)
  {
  }

  lemma PlainHasNoSign(k: string)
    requires PlainKey(k)
    ensures '%' !in k && '=' !in k
  {
  }

  /** A piece of a query without escapes that is not about the parameter. */
  predicate IsNotAbout(piece: string, k: string) { '%' !in piece && Norm(piece[..IndexByte(piece, '=')]) != k }

  lemma PieceSets(params: Params, k: string, v: string)
    requires KeyParameter(k) && '%' !in v
    ensures OverrideOne(params, k + "=" + v) == params[k := v]
  {
    KeyParametersAreRaw(k);
    KeyParameterIsPlain(k);
    PlainHasNoSign(k);
    PlainKeyIsNormal(k);
    IndexByteAt(k, '=', v);
    UnescapePlain(k);
    UnescapePlain(v);
  }

  lemma PieceKeeps(params: Params, piece: string, k: string, v: string)
    requires IsNotAbout(piece, k) && k in params && params[k] == v
    ensures k in OverrideOne(params, piece) && OverrideOne(params, piece)[k] == v
  {
    UnescapePlain(piece[..IndexByte(piece, '=')]);
  }

  lemma {:induction false} LaterPiecesKeep(params: Params, before: seq<string>, k: string, v: string,
          after: seq<string>)
    requires KeyParameter(k) && '%' !in v && forall i :: 0 <= i < |after| ==> IsNotAbout(after[i], k)
    ensures var r := Override(params, before + [k + "=" + v] + after); k in r && r[k] == v
    decreases |after|
  {
    var pieces := before + [k + "=" + v] + after;
    var n := |pieces| - 1;
    if after == [] {
      assert pieces[..n] == before && pieces[n] == k + "=" + v;
      PieceSets(Override(params, before), k, v);
    } else {
      var m := |after| - 1;
      assert pieces[..n] == before + [k + "=" + v] + after[..m] && pieces[n] == after[m];
      LaterPiecesKeep(params, before, k, v, after[..m]);
      PieceKeeps(Override(params, pieces[..n]), after[m], k, v);
    }
  }

  /** A key that a link carries unescaped is read as it stands, with every '+' in it, whatever
      comes before it and, as long as it is not about the same parameter, after it. */
  lemma PlusIsKept(text: string, defaultPort: nat, keys: seq<string>, before: seq<string>, k: string, v: string,
          after: seq<string>)
    requires UrlOf(text, defaultPort, keys).Some? && KeyParameter(k) && '%' !in v
    requires ParseUrlText(text).value.rawQuery == Join(before + [k + "=" + v] + after, '&')
    requires Free(before + [k + "=" + v] + after, '&') && forall i :: 0 <= i < |after| ==> IsNotAbout(after[i], k)
    ensures var params := UrlOf(text, defaultPort, keys).value.params; k in params && params[k] == v
  {
    var q := ParseUrlText(text).value.rawQuery;
    SplitJoin(before + [k + "=" + v] + after, '&');
    LaterPiecesKeep(ParamsIn(keys, ParseQuery(q)), before, k, v, after);
  }
}
