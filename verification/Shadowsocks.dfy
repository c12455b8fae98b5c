/**
 Shadowsocks share links: the printer buildSSURI (xray2sing/ray2sing/json_ingest.go) and the
 parser ShadowsocksSingbox (xray2sing/ray2sing/shadowsocks.go), which also reads the legacy
 form whose whole body is base64.
 */
module Shadowsocks {
  import opened Common
  import opened GoStrings
  import opened Urls
  import opened ShareUrl
  import Base64
  import Keys

  // ---- Methods ----

  const AEAD_METHODS: set<string> := {
    "none", "aes-128-gcm", "aes-192-gcm", "aes-256-gcm", "chacha20-ietf-poly1305", "xchacha20-ietf-poly1305"}
  const METHODS_2022: set<string> := {
    "2022-blake3-aes-128-gcm", "2022-blake3-aes-256-gcm", "2022-blake3-chacha20-poly1305"}
  const STREAM_METHODS: set<string> := {
    "aes-128-ctr", "aes-192-ctr", "aes-256-ctr", "aes-128-cfb", "aes-192-cfb", "aes-256-cfb", "rc4-md5",
    "chacha20-ietf", "xchacha20"}
  const SUPPORTED: set<string> := AEAD_METHODS + METHODS_2022 + STREAM_METHODS

  const ALIASES: map<string, string> := map[
    "dummy" := "none", "plain" := "none", "chacha20-poly1305" := "chacha20-ietf-poly1305",
    "xchacha20-poly1305" := "xchacha20-ietf-poly1305", "aead_aes_128_gcm" := "aes-128-gcm",
    "aead_aes_192_gcm" := "aes-192-gcm", "aead_aes_256_gcm" := "aes-256-gcm",
    "aead_chacha20_poly1305" := "chacha20-ietf-poly1305", "aead_xchacha20_poly1305" := "xchacha20-ietf-poly1305"]

  function Canonical(m: string): string { if m in ALIASES then ALIASES[m] else m }

  /** normalizeSSMethod */
  function NormalizeMethod(v: string): string { Canonical(Lower(TrimSpace(v))) }

  // ---- The printer ----

  /** The printer's own spelling: only the two aliases of "none" are resolved. */
  function PrintedMethod(v: string): string {
    var m := Lower(TrimSpace(v));
    if m == "plain" || m == "dummy" then "none" else m
  }

  function PluginQuery(plugin: string): Params { if plugin == "" then map[] else map["plugin" := plugin] }

  /** buildSSURI */
  function BuildUri(methodName: string, password: string, host: string, port: nat, name: string,
          plugin: string): string {
    PrintUrl("ss", Some(Base64.Encode(PrintedMethod(methodName) + ":" + password, Base64.Url, false)), host, port,
             if plugin == "" then "" else EncodeQuery([Pair("plugin", plugin)]), Escape(name, PathSegment))
  }

  // ---- The parser ----

  datatype Failure = BadUrl | BadPlugin | BadMethod

  datatype Outbound = Outbound(tag: string, server: string, port: nat, cipher: string, password: string,
                               plugin: string, pluginOptions: string)

  /** The first position of one of the characters, or the length. */
  function IndexAny(s: string, chars: string): (i: nat)
    ensures i <= |s|
  {
    if s == "" || s[0] in chars then 0 else 1 + IndexAny(s[1..], chars)
  }

  /** Whether the userinfo as it stands in the URL has a ':'. */
  predicate RawUserinfoHasColon(url: string) {
    var i := Index(url, "://");
    var rest := if i < |url| then url[i + 3..] else url;
    var authority := rest[..IndexAny(rest, "/?#")];
    var at := LastIndexByte(authority, '@');
    at >= 0 && ':' in authority[..at]
  }

  /** How many backslashes stand right before a position. */
  function Backslashes(s: string, i: nat): (n: nat)
    requires i <= |s|
    ensures n <= i
  {
    if i > 0 && s[i - 1] == '\\' then 1 + Backslashes(s, i - 1) else 0
  }

  predicate Unescaped(s: string, i: nat, sep: char)
    requires i < |s|
  {
    s[i] == sep && sep != '\\' && Backslashes(s, i) % 2 == 0
  }

  /** The first separator that is not escaped, searched from a position on; the length if none. */
  function FirstUnescaped(s: string, from: nat, sep: char): (r: nat)
    requires from <= |s|
    ensures from <= r <= |s| && (r < |s| ==> Unescaped(s, r, sep))
    ensures forall j :: from <= j < r ==> !Unescaped(s, j, sep)
    decreases |s| - from
  {
    if from == |s| || Unescaped(s, from, sep) then from else FirstUnescaped(s, from + 1, sep)
  }

  /** indexUnescaped: one pass with a count of backslashes. */
  method IndexUnescaped(s: string, sep: char) returns (r: int)
    ensures r == -1 ==> forall j :: 0 <= j < |s| ==> !Unescaped(s, j, sep)
    ensures r != -1 ==> 0 <= r < |s| && Unescaped(s, r, sep) && forall j :: 0 <= j < r ==> !Unescaped(s, j, sep)
    ensures r == if FirstUnescaped(s, 0, sep) == |s| then -1 else FirstUnescaped(s, 0, sep)
  {
    var backslashes := 0;
    for i := 0 to |s|
      invariant backslashes == Backslashes(s, i)
      invariant forall j :: 0 <= j < i ==> !Unescaped(s, j, sep)
    {
      if s[i] == '\\' {
        backslashes := backslashes + 1;
      } else if s[i] == sep {
        if backslashes % 2 == 0 {
          return i;
        }
        backslashes := 0;
      } else {
        backslashes := 0;
      }
    }
    r := -1;
  }

  datatype Plugin = Plugin(name: string, options: string)

  function CutPlugin(plugin: string): Plugin {
    var i := FirstUnescaped(plugin, 0, ';');
    if i < |plugin| then Plugin(plugin[..i], plugin[i + 1..]) else Plugin(plugin, "")
  }

  const PLUGINS: map<string, string> := map[
    "" := "", "obfs-local" := "obfs-local", "v2ray-plugin" := "v2ray-plugin", "simple-obfs" := "obfs-local",
    "obfs" := "obfs-local", "xray-plugin" := "v2ray-plugin"]

  const DEFAULT_PORT := 443

  /** normalizeLegacyShadowsocks: a body that is base64 of method:password@host:port is spelt out. */
  function NormalizeLegacy(raw: string): string {
    if !HasPrefix(raw, "ss://") then raw
    else
      var i := IndexAny(raw[5..], "?#");
      var body, tail := raw[5..][..i], raw[5..][i..];
      if '@' in body || !IsBase64CharsOnly(body) then raw
      else
        match Keys.DecodeFaultTolerant(body)
        case None => raw
        case Some(text) => if '@' in text && ':' in text then "ss://" + SpellOut(text) + tail else raw
  }

  function SpellOut(text: string): string
    requires '@' in text
  {
    var at := LastIndexByte(text, '@');
    var (methodName, password) := CutAt(text[..at], ':');
    Escape(methodName, UserPassword) + ":" + Escape(password, UserPassword) + "@" + text[at + 1..]
  }

  predicate Is2022(cipher: string) { HasPrefix(cipher, "2022-") }

  /** normalizeSS2022Password, proved to be computed by Keys.NormalizeSS2022Password. */
  function FixedPassword(p: string): string { Join(Keys.FixSegments(Split(p, ':')), ':') }

  /** Method and password: a userinfo without ':' is the password alone. */
  function CredentialsOf(u: UrlSchema, text: string): Credentials {
    if u.password == "" && !RawUserinfoHasColon(text) then Credentials("none", u.username)
    else Credentials(u.username, u.password)
  }

  function Make(u: UrlSchema, c: Credentials, plugin: Plugin): Result<Outbound, Failure> {
    var name, cipher := Lower(plugin.name), NormalizeMethod(c.username);
    if name !in PLUGINS then Err(BadPlugin)
    else if cipher !in SUPPORTED then Err(BadMethod)
    else
      Ok(Outbound(u.name, u.hostname, u.port, cipher,
                  PasswordFor(cipher, c.password), PLUGINS[name], plugin.options))
  }

  function PasswordFor(cipher: string, password: string): string {
    if Is2022(cipher) && password != "" then FixedPassword(password) else password
  }

  function ParamOr(params: Params, k: string): string { if k in params then params[k] else "" }

  /** ShadowsocksSingbox */
  function OutboundOf(raw: string, keys: seq<string>): Result<Outbound, Failure> {
    var text := NormalizeLegacy(raw);
    match UrlOf(text, DEFAULT_PORT, keys)
    case None => Err(BadUrl)
    case Some(u) => Make(u, CredentialsOf(u, text), CutPlugin(ParamOr(u.params, "plugin")))
  }

  // ---- Userinfo: base64 of "method:password" ----

  predicate BlobChar(c: char) { IsAlnum(c) || c == '-' || c == '_' }

  predicate Blob(s: string) { s != "" && forall i :: 0 <= i < |s| ==> BlobChar(s[i]) }

  lemma EncodedIsBlob(b: string)
    requires b != ""
    ensures Blob(Base64.Encode(b, Base64.Url, false))
  {
  }

  lemma BlobDecodes(b: string)
    requires b != "" && IsBytes(b)
    ensures Keys.DecodeFaultTolerant(Base64.Encode(b, Base64.Url, false)) == Some(b)
  {
    var s := Base64.Encode(b, Base64.Url, false);
    EncodedIsBlob(b);
    Keys.StripsNothing(s);
    Keys.ReadsAllEncodings(b, Base64.Url, false, s);
  }

  lemma BlobFacts(s: string)
    requires Blob(s)
    ensures IsBase64CharsOnly(s) && AllUserChars(s) && '%' !in s && ':' !in s && '@' !in s && IsPrintableText(s)
  {
    AsciiIsPrintable(s);
  }

  predicate PlainAscii(s: string) { forall i :: 0 <= i < |s| ==> ' ' <= s[i] <= '~' }

  lemma {:induction false} AsciiPrefix(a: string, b: string)
    requires PlainAscii(a)
    ensures IsPrintableText(a + b) <==> IsPrintableText(b)
    decreases |a|
  {
    if a == "" {
      assert a + b == b;
    } else {
      AsciiPrefix(a[1..], b);
      assert (a + b)[1..] == a[1..] + b;
      assert RuneLength(a + b) == 1;
      PrintableChars(a[0], a[1..] + b, a + b);
    }
  }

  lemma PrintableChars(c: char, rest: string, s: string)
    requires s == [c] + rest && ' ' <= c <= '~'
    ensures (forall i :: 0 <= i < |s| ==> IsPrintableChar(s[i]))
            <==> (forall i :: 0 <= i < |rest| ==> IsPrintableChar(rest[i]))
  {
    if forall i :: 0 <= i < |s| ==> IsPrintableChar(s[i]) {
      forall i | 0 <= i < |rest|
        ensures IsPrintableChar(rest[i])
      {
        assert s[i + 1] == rest[i];
      }
    }
  }

  lemma AsciiIsPrintable(s: string)
    requires PlainAscii(s)
    ensures IsPrintableText(s)
  {
    AsciiPrefix(s, "");
    assert s + "" == s;
  }

  lemma BlobParses(blob: string)
    requires Blob(blob)
    ensures ParseUserinfo(Some(blob)) == Some(Credentials(blob, ""))
  {
    BlobFacts(blob);
    UnescapePlain(blob);
    CutAbsent(blob, ':');
  }

  lemma BlobOpens(blob: string, m: string, password: string)
    requires Blob(blob) && Keys.DecodeFaultTolerant(blob) == Some(m + ":" + password) && PlainAscii(m) && ':' !in m
    ensures OpenUserinfo("ss", Credentials(blob, ""))
            == if IsPrintableText(password) then Credentials(m, password) else Credentials(blob, "")
  {
    BlobFacts(blob);
    AsciiPrefix(m + ":", password);
    CutPresent(m, ':', password);
    assert ':' in m + ":" + password;
  }

  function UserinfoOf(m: string, password: string): string { Base64.Encode(m + ":" + password, Base64.Url, false) }

  lemma UserinfoIsBlob(m: string, password: string)
    requires PlainAscii(m) && IsBytes(password)
    ensures Blob(UserinfoOf(m, password))
    ensures Keys.DecodeFaultTolerant(UserinfoOf(m, password)) == Some(m + ":" + password)
  {
    EncodedIsBlob(m + ":" + password);
    BlobDecodes(m + ":" + password);
  }

  // ---- Known methods ----

  predicate KnownMethod(m: string) { Canonical(m) in SUPPORTED }

  predicate MethodChar(c: char) { 'a' <= c <= 'z' || '0' <= c <= '9' || c == '-' || c == '_' }

  predicate MethodText(m: string) { m != "" && forall i :: 0 <= i < |m| ==> MethodChar(m[i]) }

  lemma AeadIsText(m: string)
    requires m in AEAD_METHODS
    ensures MethodText(m)
  {
  }

  lemma Method2022IsText(m: string)
    requires m in METHODS_2022
    ensures MethodText(m)
  {
  }

  lemma StreamIsText(m: string)
    requires m in STREAM_METHODS
    ensures MethodText(m)
  {
  }

  lemma SupportedIsText(m: string)
    requires m in SUPPORTED
    ensures MethodText(m)
  {
    if m in AEAD_METHODS {
      AeadIsText(m);
    } else if m in METHODS_2022 {
      Method2022IsText(m);
    } else {
      StreamIsText(m);
    }
  }

  lemma AliasIsText(m: string)
    requires m in ALIASES
    ensures MethodText(m)
  {
  }

  lemma KnownIsText(m: string)
    requires KnownMethod(m)
    ensures MethodText(m)
  {
    if m in ALIASES {
      AliasIsText(m);
    } else {
      SupportedIsText(m);
    }
  }

  lemma MethodTextFacts(m: string)
    requires MethodText(m)
    ensures PlainAscii(m) && ':' !in m && '@' !in m && Lower(TrimSpace(m)) == m
  {
  }

  lemma NoneIsKnown()
    ensures Canonical("none") == "none" && "none" in SUPPORTED && !Is2022("none") && NormalizeMethod("none") == "none"
  {
  }

  /** The printer's spelling means the same to the parser. */
  lemma PrintedMethodMeansTheSame(v: string)
    requires NormalizeMethod(v) in SUPPORTED
    ensures MethodText(PrintedMethod(v)) && NormalizeMethod(PrintedMethod(v)) == NormalizeMethod(v)
  {
    var m := Lower(TrimSpace(v));
    NoneIsKnown();
    if m == "plain" || m == "dummy" {
      AliasOfNone(m);
    } else {
      KnownIsText(m);
      MethodTextFacts(m);
    }
  }

  lemma AliasOfNone(m: string)
    requires m == "plain" || m == "dummy"
    ensures Canonical(m) == "none"
  {
  }

  // ---- Which cipher a name stands for ----

  predicate IsAesCipher(c: string) {
    || c == "aes-128-gcm" || c == "aes-192-gcm" || c == "aes-256-gcm"
    || c == "aes-128-ctr" || c == "aes-192-ctr" || c == "aes-256-ctr"
    || c == "aes-128-cfb" || c == "aes-192-cfb" || c == "aes-256-cfb"
  }

  predicate IsOtherCipher(c: string) {
    || c == "none" || c == "rc4-md5" || c == "chacha20-ietf" || c == "xchacha20"
    || c == "chacha20-ietf-poly1305" || c == "xchacha20-ietf-poly1305"
    || c == "2022-blake3-aes-128-gcm" || c == "2022-blake3-aes-256-gcm" || c == "2022-blake3-chacha20-poly1305"
  }

  /** The names that other programs have for some of the ciphers. */
  predicate IsAliasOf(m: string, c: string) {
    || ((m == "plain" || m == "dummy") && c == "none")
    || ((m == "chacha20-poly1305" || m == "aead_chacha20_poly1305") && c == "chacha20-ietf-poly1305")
    || ((m == "xchacha20-poly1305" || m == "aead_xchacha20_poly1305") && c == "xchacha20-ietf-poly1305")
    || (m == "aead_aes_128_gcm" && c == "aes-128-gcm")
    || (m == "aead_aes_192_gcm" && c == "aes-192-gcm")
    || (m == "aead_aes_256_gcm" && c == "aes-256-gcm")
  }

  /** A method name in lower case stands for the cipher of that name, or for the one it is an
      alias of. */
  predicate StandsFor(m: string, c: string) { ((IsAesCipher(m) || IsOtherCipher(m)) && c == m) || IsAliasOf(m, c) }

  lemma AesCiphers(c: string)
    ensures IsAesCipher(c) ==> c in SUPPORTED && c !in ALIASES
  {
  }

  lemma OtherCiphers(c: string)
    ensures IsOtherCipher(c) ==> c in SUPPORTED && c !in ALIASES
  {
  }

  lemma AeadCiphers(c: string)
    ensures c in AEAD_METHODS ==> IsAesCipher(c) || IsOtherCipher(c)
  {
  }

  lemma Ciphers2022(c: string)
    ensures c in METHODS_2022 ==> IsOtherCipher(c)
  {
  }

  lemma StreamCiphers(c: string)
    ensures c in STREAM_METHODS ==> IsAesCipher(c) || IsOtherCipher(c)
  {
  }

  lemma CiphersAreSupported(c: string)
    ensures IsAesCipher(c) || IsOtherCipher(c) <==> c in SUPPORTED
    ensures c in SUPPORTED ==> c !in ALIASES
  {
    AesCiphers(c);
    OtherCiphers(c);
    AeadCiphers(c);
    Ciphers2022(c);
    StreamCiphers(c);
  }

  lemma AliasesAsListed(m: string)
    ensures m in ALIASES ==> IsAliasOf(m, ALIASES[m])
  {
  }

  lemma ListedAliases(m: string, c: string)
    requires IsAliasOf(m, c)
    ensures m in ALIASES && ALIASES[m] == c
  {
  }

  lemma AliasedCipher(m: string, c: string)
    requires IsAliasOf(m, c)
    ensures IsAesCipher(c) || IsOtherCipher(c)
  {
  }

  /** normalizeSSMethod and the table of supported ciphers, together: a name in any case and with
      any white space around it is taken for exactly the cipher it stands for. */
  lemma CiphersExactly(v: string, c: string)
    ensures StandsFor(Lower(TrimSpace(v)), c) <==> NormalizeMethod(v) == c && c in SUPPORTED
  {
    var m := Lower(TrimSpace(v));
    CiphersAreSupported(m);
    CiphersAreSupported(c);
    AliasesAsListed(m);
    if IsAliasOf(m, c) {
      ListedAliases(m, c);
      AliasedCipher(m, c);
    }
  }

  /** The two plugins of the engine, and the names that subscriptions have for them. */
  predicate PluginStandsFor(n: string, plugin: string) {
    || (n == "" && plugin == "")
    || ((n == "obfs-local" || n == "simple-obfs" || n == "obfs") && plugin == "obfs-local")
    || ((n == "v2ray-plugin" || n == "xray-plugin") && plugin == "v2ray-plugin")
  }

  lemma PluginsExactly(n: string, plugin: string)
    ensures PluginStandsFor(n, plugin) <==> n in PLUGINS && PLUGINS[n] == plugin
  {
  }

  // ---- The text of a printed link ----

  lemma {:induction false} IndexAnyAt(a: string, b: string, chars: string)
    requires forall i :: 0 <= i < |a| ==> a[i] !in chars
    requires b == "" || b[0] in chars
    ensures IndexAny(a + b, chars) == |a|
  {
    if a == "" {
      assert a + b == b;
    } else {
      IndexAnyAt(a[1..], b, chars);
      assert (a + b)[1..] == a[1..] + b;
    }
  }

  function Tail(query: string, frag: string): (t: string)
    ensures t == "" || t[0] == '?' || t[0] == '#'
  {
    (if query == "" then "" else "?" + query) + (if frag == "" then "" else "#" + frag)
  }

  lemma AuthorityEnds(auth: string, query: string, frag: string)
    requires AuthorityChars(auth)
    ensures IndexAny(auth + Tail(query, frag), "?#") == |auth| && IndexAny(auth + Tail(query, frag), "/?#") == |auth|
  {
    AuthorityHasNoEnd(auth);
    IndexAnyAt(auth, Tail(query, frag), "?#");
    IndexAnyAt(auth, Tail(query, frag), "/?#");
  }

  lemma AuthorityHasNoEnd(auth: string)
    requires AuthorityChars(auth)
    ensures forall i :: 0 <= i < |auth| ==> auth[i] !in "/?#" && auth[i] !in "?#"
  {
  }

  /** A printed link as scheme, authority and tail. */
  lemma PrintedShape(user: string, host: string, port: nat, query: string, frag: string)
    requires AllUserChars(user) && ValidHost(host)
    ensures var auth := user + "@" + HostPort(host, port);
            && PrintUrl("ss", Some(user), host, port, query, frag) == "ss://" + (auth + Tail(query, frag))
            && AuthorityChars(auth) && '@' !in HostPort(host, port)
  {
  }

  /** A link with a plain '@' is not taken for the legacy form. */
  lemma NotLegacy(user: string, host: string, port: nat, query: string, frag: string)
    requires AllUserChars(user) && ValidHost(host)
    ensures var url := PrintUrl("ss", Some(user), host, port, query, frag); NormalizeLegacy(url) == url
  {
    var auth := user + "@" + HostPort(host, port);
    PrintedShape(user, host, port, query, frag);
    AuthorityEnds(auth, query, frag);
    var rest := auth + Tail(query, frag);
    assert ("ss://" + rest)[5..] == rest;
    assert rest[..|auth|] == auth;
    assert auth[|user|] == '@';
  }

  lemma AuthorityOfPrinted(auth: string, query: string, frag: string)
    requires AuthorityChars(auth)
    ensures var url := "ss://" + (auth + Tail(query, frag));
            var i := Index(url, "://");
            && i + 3 <= |url| && url[i + 3..] == auth + Tail(query, frag)
            && url[i + 3..][..IndexAny(url[i + 3..], "/?#")] == auth
  {
    var rest := auth + Tail(query, frag);
    IndexAt("ss", "://", rest);
    assert "ss" + "://" + rest == "ss://" + rest;
    AuthorityEnds(auth, query, frag);
  }

  lemma NoRawColon(user: string, host: string, port: nat, query: string, frag: string)
    requires AllUserChars(user) && ':' !in user && ValidHost(host)
    ensures !RawUserinfoHasColon(PrintUrl("ss", Some(user), host, port, query, frag))
  {
    var hp := HostPort(host, port);
    PrintedShape(user, host, port, query, frag);
    AuthorityOfPrinted(user + "@" + hp, query, frag);
    LastIndexByteAt(user, '@', hp);
  }

  // ---- The plugin parameter ----

  /** How the callers of the printer join a plugin and its options. */
  function PluginParam(name: string, options: string): string {
    if name != "" && options != "" then name + ";" + options else name
  }

  predicate KnownPlugin(name: string) { Lower(name) in PLUGINS }

  predicate PluginChar(c: char) { 'a' <= c <= 'z' || '0' <= c <= '9' || c == '-' }

  lemma PluginNameChars(n: string)
    requires n in PLUGINS
    ensures forall i :: 0 <= i < |n| ==> PluginChar(n[i])
  {
  }

  lemma PlainPluginName(name: string)
    requires KnownPlugin(name)
    ensures forall i :: 0 <= i < |name| ==> name[i] != ';' && name[i] != '\\'
    ensures IsBytes(name)
  {
    PluginNameChars(Lower(name));
    forall i | 0 <= i < |name|
      ensures name[i] != ';' && name[i] != '\\' && name[i] as int < 256
    {
      assert PluginChar(Lower(name)[i]);
    }
  }

  lemma FirstUnescapedAt(s: string, n: nat, sep: char)
    requires n <= |s| && (n < |s| ==> Unescaped(s, n, sep))
    requires forall j :: 0 <= j < n ==> !Unescaped(s, j, sep)
    ensures FirstUnescaped(s, 0, sep) == n
  {
  }

  /** Name and options come back, whatever separators and escapes the options hold. */
  lemma PluginReadsBack(name: string, options: string)
    requires KnownPlugin(name) && (name == "" ==> options == "")
    ensures CutPlugin(PluginParam(name, options)) == Plugin(name, options)
  {
    PlainPluginName(name);
    var s := PluginParam(name, options);
    if options == "" {
      FirstUnescapedAt(s, |s|, ';');
    } else {
      assert s == name + ";" + options;
      assert Backslashes(s, |name|) == 0 by {
        assert s[|name| - 1] == name[|name| - 1];
      }
      assert forall j :: 0 <= j < |name| ==> s[j] == name[j];
      FirstUnescapedAt(s, |name|, ';');
    }
  }

  // ---- The printed link is parsed ----

  lemma PluginQueryText(plugin: string, order: seq<string>)
    requires Lists(order, PluginQuery(plugin))
    ensures (if plugin == "" then "" else EncodeQuery([Pair("plugin", plugin)]))
            == EncodeQuery(PairsIn(order, PluginQuery(plugin)))
  {
    if plugin == "" {
      if order != [] {
        HeadIsListed(order, PluginQuery(plugin));
      }
    } else {
      OnlyOne(order, PluginQuery(plugin), "plugin");
      assert PairsIn(order, PluginQuery(plugin)) == [Pair("plugin", plugin)];
    }
  }

  lemma HeadIsListed(order: seq<string>, m: Params)
    requires Lists(order, m) && order != []
    ensures order[0] in m
  {
  }

  lemma HeadsDiffer(order: seq<string>, m: Params)
    requires Lists(order, m) && |order| >= 2
    ensures order[0] != order[1]
  {
  }

  lemma OnlyOne(order: seq<string>, m: Params, k: string)
    requires Lists(order, m) && m.Keys == {k}
    ensures order == [k]
  {
    assert k in order;
    forall i | 0 <= i < |order|
      ensures order[i] == k
    {
      assert order[i] in order && order[i] in m.Keys;
    }
    if |order| >= 2 {
      HeadsDiffer(order, m);
    }
  }

  lemma PluginQueryIsCanonical(plugin: string)
    requires IsBytes(plugin)
    ensures ShareUrl.Canonical(PluginQuery(plugin))
  {
  }

  // ---- The round trip ----

  /** What comes back when the userinfo could be opened, and when it could not. */
  function ReadBack(m: string, password: string): Credentials {
    if IsPrintableText(password) then Credentials(m, password) else Credentials(UserinfoOf(m, password), "")
  }

  lemma BlobReads(m: string, password: string)
    requires PlainAscii(m) && ':' !in m && IsBytes(password)
    ensures var blob := UserinfoOf(m, password);
            && AllUserChars(blob) && ParseUserinfo(Some(blob)) == Some(Credentials(blob, ""))
            && OpenUserinfo("ss", Credentials(blob, "")) == ReadBack(m, password)
  {
    var blob := UserinfoOf(m, password);
    UserinfoIsBlob(m, password);
    BlobFacts(blob);
    BlobParses(blob);
    BlobOpens(blob, m, password);
  }

  lemma BlobLinkParses(blob: string, c: Credentials, host: string, port: nat, name: string, q: Params,
          order: seq<string>, keys: seq<string>)
    requires AllUserChars(blob) && ParseUserinfo(Some(blob)) == Some(Credentials(blob, ""))
    requires OpenUserinfo("ss", Credentials(blob, "")) == c
    requires ValidHost(host) && port < PORT_LIMIT && IsBytes(name)
    requires ShareUrl.Canonical(q) && Lists(order, q) && Lists(keys, q)
    ensures UrlOf(PrintUrl("ss", Some(blob), host, port, EncodeQuery(PairsIn(order, q)), Escape(name, PathSegment)),
                  DEFAULT_PORT, keys)
            == Some(UrlSchema("ss", c.username, c.password, host, PortOrDefault(port), name, q))
  {
    assert LowerLetters("ss");
    ParsePrintedLink("ss", Some(blob), Credentials(blob, ""), host, port, q, order, keys, name, PathSegment,
            DEFAULT_PORT);
  }

  lemma LinkParses(m: string, password: string, host: string, port: nat, name: string, plugin: string,
          order: seq<string>, keys: seq<string>)
    requires PlainAscii(m) && ':' !in m && IsBytes(password) && IsBytes(plugin) && IsBytes(name)
    requires ValidHost(host) && port < PORT_LIMIT
    requires Lists(order, PluginQuery(plugin)) && Lists(keys, PluginQuery(plugin))
    ensures var c, query := ReadBack(m, password), EncodeQuery(PairsIn(order, PluginQuery(plugin)));
            var text := PrintUrl("ss", Some(UserinfoOf(m, password)), host, port, query, Escape(name, PathSegment));
            UrlOf(text, DEFAULT_PORT, keys)
            == Some(UrlSchema("ss", c.username, c.password, host, PortOrDefault(port), name, PluginQuery(plugin)))
  {
    var blob := UserinfoOf(m, password);
    BlobReads(m, password);
    PluginQueryIsCanonical(plugin);
    BlobLinkParses(blob, ReadBack(m, password), host, port, name, PluginQuery(plugin), order, keys);
  }

  lemma PrintedText(methodName: string, password: string, host: string, port: nat, name: string, plugin: string,
          order: seq<string>)
    requires Lists(order, PluginQuery(plugin))
    ensures BuildUri(methodName, password, host, port, name, plugin)
            == PrintUrl("ss", Some(UserinfoOf(PrintedMethod(methodName), password)), host, port,
                        EncodeQuery(PairsIn(order, PluginQuery(plugin))), Escape(name, PathSegment))
  {
    PluginQueryText(plugin, order);
  }

  function ReadUrl(m: string, password: string, host: string, port: nat, name: string, plugin: string): UrlSchema {
    var c := ReadBack(m, password);
    UrlSchema("ss", c.username, c.password, host, PortOrDefault(port), name, PluginQuery(plugin))
  }

  /** The credentials that come back. */
  function Returned(m: string, password: string): Credentials {
    if !IsPrintableText(password) then Credentials("none", UserinfoOf(m, password))
    else if password == "" then Credentials("none", m)
    else Credentials(m, password)
  }

  lemma CredentialsReadBack(m: string, password: string, host: string, port: nat, name: string, query: string,
          u: UrlSchema)
    requires MethodText(m) && IsBytes(password) && ValidHost(host)
    requires u.username == ReadBack(m, password).username && u.password == ReadBack(m, password).password
    ensures var user := Some(UserinfoOf(m, password));
            CredentialsOf(u, PrintUrl("ss", user, host, port, query, Escape(name, PathSegment)))
            == Returned(m, password)
  {
    MethodTextFacts(m);
    UserinfoIsBlob(m, password);
    BlobFacts(UserinfoOf(m, password));
    NoRawColon(UserinfoOf(m, password), host, port, query, Escape(name, PathSegment));
  }

  /** The text of the link is read as it is printed, apart from the userinfo. */
  lemma PrintedIsRead(methodName: string, password: string, host: string, port: nat, name: string, plugin: string,
          keys: seq<string>)
    requires MethodText(PrintedMethod(methodName)) && IsBytes(password) && IsBytes(name) && IsBytes(plugin)
    requires ValidHost(host) && port < PORT_LIMIT && Lists(keys, PluginQuery(plugin))
    ensures var m := PrintedMethod(methodName);
            OutboundOf(BuildUri(methodName, password, host, port, name, plugin), keys)
            == Make(ReadUrl(m, password, host, port, name, plugin), Returned(m, password), CutPlugin(plugin))
  {
    var m := PrintedMethod(methodName);
    var query := EncodeQuery(PairsIn(keys, PluginQuery(plugin)));
    var user := UserinfoOf(m, password);
    var u := ReadUrl(m, password, host, port, name, plugin);
    MethodTextFacts(m);
    PrintedText(methodName, password, host, port, name, plugin, keys);
    UserinfoIsBlob(m, password);
    BlobFacts(user);
    NotLegacy(user, host, port, query, Escape(name, PathSegment));
    LinkParses(m, password, host, port, name, plugin, keys, keys);
    CredentialsReadBack(m, password, host, port, name, query, u);
  }

  // ---- Which passwords survive ----

  /** A segment that decodes, or that holds no url-safe symbol and needs no padding. */
  predicate StableSegment(s: string) {
    Base64.DecodeString(s, Base64.Std).Some? || (|s| % 4 == 0 && '-' !in s && '_' !in s)
  }

  predicate StableSegments(parts: seq<string>) { forall i :: 0 <= i < |parts| ==> StableSegment(parts[i]) }

  lemma FixSegmentStable(s: string)
    requires ':' !in s
    ensures Keys.FixSegment(s) == s <==> StableSegment(s)
    ensures ':' !in Keys.FixSegment(s)
  {
  }

  lemma FixedPasswordStable(p: string)
    ensures FixedPassword(p) == p <==> StableSegments(Split(p, ':'))
  {
    var parts := Split(p, ':');
    var fixedParts := Keys.FixSegments(parts);
    forall i | 0 <= i < |parts|
      ensures ':' !in fixedParts[i] && (fixedParts[i] == parts[i] <==> StableSegment(parts[i]))
    {
      FixSegmentStable(parts[i]);
    }
    JoinSplit(p, ':');
    SplitJoin(fixedParts, ':');
    if FixedPassword(p) == p {
      assert fixedParts == parts;
    } else {
      assert fixedParts != parts;
    }
  }

  /** The exact condition: not empty, printable, and for a 2022 method in a form that the parser
      leaves alone. */
  predicate Survives(cipher: string, password: string) {
    && password != "" && IsPrintableText(password)
    && (HasPrefix(cipher, "2022-") ==> StableSegments(Split(password, ':')))
  }

  lemma MadeOutbound(u: UrlSchema, c: Credentials, p: Plugin)
    requires Lower(p.name) in PLUGINS && NormalizeMethod(c.username) in SUPPORTED
    ensures var cipher := NormalizeMethod(c.username);
            var password := PasswordFor(cipher, c.password);
            Make(u, c, p)
            == Ok(Outbound(u.name, u.hostname, u.port, cipher, password, PLUGINS[Lower(p.name)], p.options))
  {
  }

  lemma ReturnedIsKnown(m: string, password: string)
    requires NormalizeMethod(m) in SUPPORTED
    ensures NormalizeMethod(Returned(m, password).username) in SUPPORTED
  {
    NoneIsKnown();
  }

  /** The credentials are the printed ones exactly when the password survives. */
  lemma ReturnedIsSame(m: string, password: string)
    requires MethodText(m) && IsBytes(password)
    ensures var c := Returned(m, password);
            var cipher := NormalizeMethod(c.username);
            cipher == NormalizeMethod(m) && PasswordFor(cipher, c.password) == password
            <==> Survives(NormalizeMethod(m), password)
  {
    NoneIsKnown();
    MethodTextFacts(m);
    UserinfoIsBlob(m, password);
    BlobFacts(UserinfoOf(m, password));
    FixedPasswordStable(password);
  }

  /** Cipher, password, server, port, plugin and options all come back exactly when the password
      is one that survives. */
  lemma RoundTripExactly(methodName: string, cipher: string, password: string, host: string, port: nat, name: string,
          plugin: string, runs: string, options: string, keys: seq<string>)
    requires StandsFor(Lower(TrimSpace(methodName)), cipher) && PluginStandsFor(Lower(plugin), runs)
    requires IsBytes(password) && IsBytes(name) && IsBytes(options) && (plugin == "" ==> options == "")
    requires ValidHost(host) && port < PORT_LIMIT && Lists(keys, PluginQuery(PluginParam(plugin, options)))
    ensures OutboundOf(BuildUri(methodName, password, host, port, name, PluginParam(plugin, options)), keys)
            == Ok(Outbound(name, host, if port == 0 then 443 else port, cipher, password, runs, options))
            <==> Survives(cipher, password)
  {
    var m, param := PrintedMethod(methodName), PluginParam(plugin, options);
    CiphersExactly(methodName, cipher);
    PluginsExactly(Lower(plugin), runs);
    PlainPluginName(plugin);
    PrintedMethodMeansTheSame(methodName);
    PrintedIsRead(methodName, password, host, port, name, param, keys);
    PluginReadsBack(plugin, options);
    ReturnedIsKnown(m, password);
    MadeOutbound(ReadUrl(m, password, host, port, name, param), Returned(m, password), Plugin(plugin, options));
    ReturnedIsSame(m, password);
  }

  /** An empty password: the method comes back as the password, and "none" as the method. */
  lemma EmptyPasswordIsLost(methodName: string, cipher: string, host: string, port: nat, name: string)
    requires StandsFor(Lower(TrimSpace(methodName)), cipher)
    requires IsBytes(name) && ValidHost(host) && port < PORT_LIMIT
    ensures var m := Lower(TrimSpace(methodName));
            OutboundOf(BuildUri(methodName, "", host, port, name, ""), [])
            == Ok(Outbound(name, host, if port == 0 then 443 else port, "none",
                           if m == "plain" || m == "dummy" then "none" else m, "", ""))
  {
    var m := PrintedMethod(methodName);
    CiphersExactly(methodName, cipher);
    PrintedMethodMeansTheSame(methodName);
    PrintedIsRead(methodName, "", host, port, name, "", []);
    NoneIsKnown();
    NoPlugin();
    MadeOutbound(ReadUrl(m, "", host, port, name, ""), Credentials("none", m), Plugin("", ""));
  }

  /** A name that stands for no cipher is refused rather than replaced. */
  lemma UnknownCipherIsRefused(methodName: string, password: string, host: string, port: nat, name: string,
          plugin: string, runs: string, options: string, keys: seq<string>)
    requires forall cipher :: !StandsFor(Lower(TrimSpace(methodName)), cipher)
    requires MethodText(Lower(TrimSpace(methodName))) && password != "" && IsPrintableText(password)
    requires IsBytes(password) && IsBytes(name) && IsBytes(options)
    requires PluginStandsFor(Lower(plugin), runs) && (plugin == "" ==> options == "")
    requires ValidHost(host) && port < PORT_LIMIT && Lists(keys, PluginQuery(PluginParam(plugin, options)))
    ensures OutboundOf(BuildUri(methodName, password, host, port, name, PluginParam(plugin, options)), keys)
            == Err(BadMethod)
  {
    var m := Lower(TrimSpace(methodName));
    PrintedUnlessNone(methodName);
    PluginsExactly(Lower(plugin), runs);
    PlainPluginName(plugin);
    PrintedIsRead(methodName, password, host, port, name, PluginParam(plugin, options), keys);
    PluginReadsBack(plugin, options);
    MethodTextFacts(m);
    CiphersExactly(m, NormalizeMethod(m));
  }

  /** So is a plugin that the engine does not have, whatever the method. */
  lemma UnknownPluginIsRefused(methodName: string, password: string, host: string, port: nat, name: string,
          plugin: string, keys: seq<string>)
    requires forall runs :: !PluginStandsFor(Lower(plugin), runs)
    requires MethodText(Lower(TrimSpace(methodName))) && ';' !in plugin
    requires IsBytes(password) && IsBytes(name) && IsBytes(plugin)
    requires ValidHost(host) && port < PORT_LIMIT && Lists(keys, PluginQuery(plugin))
    ensures OutboundOf(BuildUri(methodName, password, host, port, name, plugin), keys) == Err(BadPlugin)
  {
    NoneIsKnown();
    KnownIsText("none");
    PrintedIsRead(methodName, password, host, port, name, plugin, keys);
    WholePlugin(plugin);
    if Lower(plugin) in PLUGINS {
      PluginsExactly(Lower(plugin), PLUGINS[Lower(plugin)]);
      assert false;
    }
  }

  lemma WholePlugin(plugin: string)
    requires ';' !in plugin
    ensures CutPlugin(plugin) == Plugin(plugin, "")
  {
    FirstUnescapedAt(plugin, |plugin|, ';');
  }

  /** Printing resolves the two aliases of "none" and changes no other name. */
  lemma PrintedUnlessNone(v: string)
    requires forall cipher :: !StandsFor(Lower(TrimSpace(v)), cipher)
    ensures PrintedMethod(v) == Lower(TrimSpace(v))
  {
    assert !StandsFor(Lower(TrimSpace(v)), "none");
  }

  lemma NoPlugin()
    ensures CutPlugin("") == Plugin("", "") && Lower("") in PLUGINS && PLUGINS[Lower("")] == ""
  {
  }

  // ---- A method name is never taken for base64 userinfo ----

  // Most names decode, in any case, to a text without a ':'; the others to a broken one.

  predicate ColonSafeAt(s: string, i: nat)
    requires i < |s|
  {
    var c := LowerChar(s[i]);
    && (i % 4 == 0 ==> c != 'o')
    && (i % 4 == 1 && i + 1 < |s| && (c == 'd' || c == 't' || c == 'j' || c == 'z') ==>
          !('o' <= LowerChar(s[i + 1]) <= 'r'))
    && (i % 4 == 3 && c == '6' ==> s[i - 1] == '5')
  }

  predicate ColonSafe(s: string) { forall i :: 0 <= i < |s| ==> ColonSafeAt(s, i) }

  predicate BrokenQuad(c0: char, c1: char, c2: char, c3: char) {
    || (c0 == '1' && c1 == '2' && c2 == '8' && c3 == '-')
    || (c0 == '1' && c1 == '9' && c2 == '2' && c3 == '-')
    || (c0 == '2' && c1 == '5' && c2 == '6' && c3 == '-')
    || (c0 == '0' && c1 == '-')
    || (c0 == '2' && c1 == '0' && c2 == '_')
  }

  /** Four symbols at a multiple of four that decode to the start of a character without its end. */
  predicate BrokenAt(s: string, i: nat) {
    i % 4 == 0 && i + 4 <= |s| && BrokenQuad(s[i], s[i + 1], s[i + 2], s[i + 3])
  }

  predicate Broken(s: string) { BrokenAt(s, 4) || BrokenAt(s, 8) || BrokenAt(s, 12) }

  /** The same, checked group by group. */
  predicate SafeFrom(s: string, i: nat)
    decreases |s| - i
  {
    i < |s| ==>
      && ColonSafeAt(s, i) && (i + 1 < |s| ==> ColonSafeAt(s, i + 1)) && (i + 2 < |s| ==> ColonSafeAt(s, i + 2))
      && (i + 3 < |s| ==> ColonSafeAt(s, i + 3)) && SafeFrom(s, i + 4)
  }

  lemma {:induction false} GroupsAreSafe(s: string, i: nat)
    requires SafeFrom(s, i)
    ensures forall j :: i <= j < |s| ==> ColonSafeAt(s, j)
    decreases |s| - i
  {
    if i < |s| {
      GroupsAreSafe(s, i + 4);
    }
  }

  lemma AesIsSafe(m: string)
    requires m == "none" || m == "aes-128-gcm" || m == "aes-192-gcm" || m == "aes-256-gcm"
    ensures ColonSafe(m) || Broken(m)
  {
  }

  lemma IetfIsSafe(m: string)
    requires m == "chacha20-ietf-poly1305" || m == "xchacha20-ietf-poly1305"
    ensures ColonSafe(m) || Broken(m)
  {
  }

  lemma AeadIsSafe(m: string)
    requires m in AEAD_METHODS
    ensures ColonSafe(m) || Broken(m)
  {
    if m == "chacha20-ietf-poly1305" || m == "xchacha20-ietf-poly1305" {
      IetfIsSafe(m);
    } else {
      AesIsSafe(m);
    }
  }

  lemma Aes128With2022IsSafe()
    ensures ColonSafe("2022-blake3-aes-128-gcm")
  {
    var m := "2022-blake3-aes-128-gcm";
    assert SafeFrom(m, 16);
    assert SafeFrom(m, 8);
    GroupsAreSafe(m, 0);
  }

  lemma Aes256With2022IsSafe()
    ensures ColonSafe("2022-blake3-aes-256-gcm")
  {
    var m := "2022-blake3-aes-256-gcm";
    assert SafeFrom(m, 16);
    assert SafeFrom(m, 8);
    GroupsAreSafe(m, 0);
  }

  lemma Chacha2022IsSafe()
    ensures ColonSafe("2022-blake3-chacha20-poly1305")
  {
    var m := "2022-blake3-chacha20-poly1305";
    assert SafeFrom(m, 28);
    assert SafeFrom(m, 24);
    assert SafeFrom(m, 20);
    assert SafeFrom(m, 16);
    assert SafeFrom(m, 12);
    assert SafeFrom(m, 8);
    assert SafeFrom(m, 4);
    GroupsAreSafe(m, 0);
  }

  lemma Method2022IsSafe(m: string)
    requires m in METHODS_2022
    ensures ColonSafe(m)
  {
    Aes128With2022IsSafe();
    Aes256With2022IsSafe();
    Chacha2022IsSafe();
  }

  lemma StreamIsSafe(m: string)
    requires m in STREAM_METHODS
    ensures ColonSafe(m) || Broken(m)
  {
  }

  lemma AeadAliasIsSafe(m: string)
    requires m == "aead_aes_128_gcm" || m == "aead_aes_192_gcm" || m == "aead_aes_256_gcm"
    ensures ColonSafe(m)
  {
  }

  lemma Poly1305IsSafe()
    ensures ColonSafe("chacha20-poly1305")
  {
    var m := "chacha20-poly1305";
    assert SafeFrom(m, 16);
    assert SafeFrom(m, 8);
    GroupsAreSafe(m, 0);
  }

  lemma ExtendedPoly1305IsSafe()
    ensures ColonSafe("xchacha20-poly1305")
  {
    var m := "xchacha20-poly1305";
    assert SafeFrom(m, 16);
    assert SafeFrom(m, 8);
    GroupsAreSafe(m, 0);
  }

  lemma AeadPoly1305IsSafe()
    ensures ColonSafe("aead_chacha20_poly1305")
  {
    var m := "aead_chacha20_poly1305";
    assert SafeFrom(m, 20);
    assert SafeFrom(m, 16);
    assert SafeFrom(m, 12);
    assert SafeFrom(m, 8);
    assert SafeFrom(m, 4);
    GroupsAreSafe(m, 0);
  }

  lemma ChachaAliasIsSafe(m: string)
    requires m == "chacha20-poly1305" || m == "xchacha20-poly1305" || m == "aead_chacha20_poly1305"
    ensures ColonSafe(m)
  {
    Poly1305IsSafe();
    ExtendedPoly1305IsSafe();
    AeadPoly1305IsSafe();
  }

  lemma ShortAliasIsSafe(m: string)
    requires m == "dummy" || m == "plain"
    ensures ColonSafe(m)
  {
  }

  lemma LongAliasIsBroken(m: string)
    requires m == "aead_xchacha20_poly1305"
    ensures BrokenAt(m, 12)
  {
  }

  lemma AliasIsSafe(m: string)
    requires m in ALIASES
    ensures ColonSafe(m) || Broken(m)
  {
    if m == "dummy" || m == "plain" {
      ShortAliasIsSafe(m);
    } else if m == "chacha20-poly1305" || m == "xchacha20-poly1305" || m == "aead_chacha20_poly1305" {
      ChachaAliasIsSafe(m);
    } else if m == "aead_xchacha20_poly1305" {
      LongAliasIsBroken(m);
    } else {
      AeadAliasIsSafe(m);
    }
  }

  /** The first group of a decoded text, when it is a full one. */
  lemma FirstGroup(s: string, a: Base64.Alphabet) returns (d0: int, d1: int, d2: int, d3: int)
    requires |s| >= 4 && s[3] != '=' && Base64.DecodeGroups(s, a).Some?
    ensures Base64.Value(s[0], a) == Some(d0) && Base64.Value(s[1], a) == Some(d1)
    ensures Base64.Value(s[2], a) == Some(d2) && Base64.Value(s[3], a) == Some(d3)
    ensures var t := Base64.DecodeGroups(s, a).value;
            && |t| >= 3 && t[0] as int == Base64.FirstByte(d0, d1) && t[1] as int == Base64.SecondByte(d1, d2)
            && t[2] as int == Base64.ThirdByte(d2, d3) && Base64.DecodeGroups(s[4..], a) == Some(t[3..])
  {
    Base64.ValuesChars(s[..4], a);
    var ds := Base64.Values(s[..4], a).value;
    assert s[..4][0] == s[0] && s[..4][1] == s[1] && s[..4][2] == s[2] && s[..4][3] == s[3];
    d0, d1, d2, d3 := ds[0], ds[1], ds[2], ds[3];
    assert s[2..] != "==" by {
      if |s| == 4 {
        assert s[2..][1] == s[3];
      }
    }
    var t := Base64.DecodeGroups(s, a).value;
    assert t == Base64.Bytes(ds) + Base64.DecodeGroups(s[4..], a).value;
  }

  // The bytes of a group, none of them a ':'.

  lemma ColonFirst(c0: char, d0: int, d1: int, a: Base64.Alphabet)
    requires Base64.Value(c0, a) == Some(d0) && 0 <= d1 < 64
    ensures Base64.FirstByte(d0, d1) == ':' as int ==> c0 == 'O'
  {
  }

  lemma ColonSecond(c1: char, c2: char, d1: int, d2: int, a: Base64.Alphabet)
    requires Base64.Value(c1, a) == Some(d1) && Base64.Value(c2, a) == Some(d2)
    ensures Base64.SecondByte(d1, d2) == ':' as int ==>
              'o' <= c2 <= 'r' && (c1 == 'D' || c1 == 'T' || c1 == 'j' || c1 == 'z')
  {
    if Base64.SecondByte(d1, d2) == ':' as int {
      assert 40 <= d2 <= 43 && (d1 == 3 || d1 == 19 || d1 == 35 || d1 == 51);
    }
  }

  lemma ColonThird(c2: char, c3: char, d2: int, d3: int, a: Base64.Alphabet)
    requires Base64.Value(c2, a) == Some(d2) && Base64.Value(c3, a) == Some(d3)
    ensures Base64.ThirdByte(d2, d3) == ':' as int ==> c3 == '6' && c2 != '5'
  {
  }

  lemma QuadHasNoColon(s: string, a: Base64.Alphabet, d0: int, d1: int, d2: int, d3: int)
    requires |s| >= 4 && ColonSafe(s)
    requires Base64.Value(s[0], a) == Some(d0) && Base64.Value(s[1], a) == Some(d1)
    requires Base64.Value(s[2], a) == Some(d2) && Base64.Value(s[3], a) == Some(d3)
    ensures Base64.FirstByte(d0, d1) != ':' as int && Base64.SecondByte(d1, d2) != ':' as int
    ensures Base64.ThirdByte(d2, d3) != ':' as int
  {
    assert ColonSafeAt(s, 0) && ColonSafeAt(s, 1) && ColonSafeAt(s, 3);
    ColonFirst(s[0], d0, d1, a);
    ColonSecond(s[1], s[2], d1, d2, a);
    ColonThird(s[2], s[3], d2, d3, a);
  }

  /** The last group, with one or two padding characters. */
  lemma PaddedQuadHasNoColon(s: string, a: Base64.Alphabet)
    requires |s| == 4 && s[3] == '=' && ColonSafe(s) && Base64.DecodeGroups(s, a).Some?
    ensures ':' !in Base64.DecodeGroups(s, a).value
  {
    assert ColonSafeAt(s, 0) && ColonSafeAt(s, 1);
    if s[2..] == "==" {
      Base64.ValuesChars(s[..2], a);
      var ds := Base64.Values(s[..2], a).value;
      assert s[..2][0] == s[0];
      ColonFirst(s[0], ds[0], ds[1], a);
    } else {
      Base64.ValuesChars(s[..3], a);
      var ds := Base64.Values(s[..3], a).value;
      assert s[..3][0] == s[0] && s[..3][1] == s[1] && s[..3][2] == s[2];
      ColonFirst(s[0], ds[0], ds[1], a);
      ColonSecond(s[1], s[2], ds[1], ds[2], a);
    }
  }

  lemma SafeTail(s: string)
    requires |s| >= 4 && ColonSafe(s)
    ensures ColonSafe(s[4..])
  {
    forall i | 0 <= i < |s| - 4
      ensures ColonSafeAt(s[4..], i)
    {
      assert ColonSafeAt(s, i + 4);
      Base64.FourMore(i);
    }
  }

  lemma {:induction false} NoColon(s: string, a: Base64.Alphabet)
    requires ColonSafe(s) && Base64.DecodeGroups(s, a).Some?
    ensures ':' !in Base64.DecodeGroups(s, a).value
    decreases |s|
  {
    if |s| == 4 && s[3] == '=' {
      PaddedQuadHasNoColon(s, a);
    } else if s != "" {
      NoPaddingInside(s, a);
      var d0, d1, d2, d3 := FirstGroup(s, a);
      var t := Base64.DecodeGroups(s, a).value;
      QuadHasNoColon(s, a, d0, d1, d2, d3);
      SafeTail(s);
      NoColon(s[4..], a);
      assert t == [t[0], t[1], t[2]] + t[3..];
    }
  }

  lemma NoPaddingInside(s: string, a: Base64.Alphabet)
    requires |s| >= 4 && Base64.DecodeGroups(s, a).Some? && !(|s| == 4 && s[3] == '=')
    ensures s[3] != '='
  {
    assert Base64.Value('=', a) == None;
    if Base64.Values(s[..4], a).Some? {
      Base64.ValuesChars(s[..4], a);
      assert s[..4][3] == s[3];
    }
  }

  // A character that is started but not finished makes the whole text invalid.

  lemma {:induction false} RuneStartsAt(t: string, i: nat)
    requires ValidUtf8(t) && i < |t| && !Continues(t[i])
    ensures ValidUtf8(t[i..])
    decreases |t|
  {
    var n := RuneLength(t);
    if i == 0 {
      assert t[0..] == t;
    } else {
      assert i >= n;
      assert t[n..][i - n] == t[i] && t[n..][i - n..] == t[i..];
      RuneStartsAt(t[n..], i - n);
    }
  }

  /** A function that takes four symbols to three bytes takes 4 k of them to 3 k. */
  lemma {:induction false} GroupAtOf(s: string, k: nat, decode: string -> Option<string>)
    requires 4 * k <= |s| && (forall j :: 0 <= j < 4 * k ==> s[j] != '=') && decode(s).Some?
    requires forall u :: |u| >= 4 && u[3] != '=' && decode(u).Some? ==>
               |decode(u).value| >= 3 && decode(u[4..]) == Some(decode(u).value[3..])
    ensures var t := decode(s).value; 3 * k <= |t| && decode(s[4 * k..]) == Some(t[3 * k..])
    decreases k
  {
    var t := decode(s).value;
    if k == 0 {
      assert s[0..] == s && t[0..] == t;
    } else {
      GroupAtOf(s[4..], k - 1, decode);
      TailOfTail(s, 4, 4 * k);
      TailOfTail(t, 3, 3 * k);
    }
  }

  lemma GroupAt(s: string, k: nat, a: Base64.Alphabet)
    requires 4 * k <= |s| && (forall j :: 0 <= j < 4 * k ==> s[j] != '=') && Base64.DecodeGroups(s, a).Some?
    ensures var t := Base64.DecodeGroups(s, a).value;
            3 * k <= |t| && Base64.DecodeGroups(s[4 * k..], a) == Some(t[3 * k..])
  {
    var decode := (u: string) => Base64.DecodeGroups(u, a);
    forall u | |u| >= 4 && u[3] != '=' && decode(u).Some?
      ensures |decode(u).value| >= 3 && decode(u[4..]) == Some(decode(u).value[3..])
    {
      var d0, d1, d2, d3 := FirstGroup(u, a);
    }
    GroupAtOf(s, k, decode);
  }

  lemma TailOfTail(s: string, i: nat, j: nat)
    requires i <= j <= |s|
    ensures s[i..][j - i..] == s[j..]
  {
  }

  /** The bytes that such a group decodes to. */
  predicate BrokenBytes(b0: int, b1: int, b2: int) {
    0xC2 <= b0 < 0xE0 && (!(0x80 <= b1 < 0xC0) || (0x80 <= b2 < 0xC0))
  }

  lemma BrokenDigits(s: string, a: Base64.Alphabet, d0: int, d1: int, d2: int, d3: int)
    requires |s| >= 4 && BrokenQuad(s[0], s[1], s[2], s[3])
    requires Base64.Value(s[0], a) == Some(d0) && Base64.Value(s[1], a) == Some(d1)
    requires Base64.Value(s[2], a) == Some(d2) && Base64.Value(s[3], a) == Some(d3)
    ensures BrokenBytes(Base64.FirstByte(d0, d1), Base64.SecondByte(d1, d2), Base64.ThirdByte(d2, d3))
  {
    if s[1] == '-' {
      assert d0 == 52 && d1 == 62;
    } else if s[1] == '0' {
      assert d0 == 54 && d1 == 52 && d2 == 63;
    } else {
      assert d3 == 62;
    }
  }

  lemma BrokenBytesAreInvalid(t: string)
    requires |t| >= 3 && BrokenBytes(t[0] as int, t[1] as int, t[2] as int)
    ensures !Continues(t[0]) && !ValidUtf8(t)
  {
    if Continues(t[1]) {
      assert RuneLength(t) == 2 && t[2..][0] == t[2];
      assert RuneLength(t[2..]) == 0;
    }
  }

  lemma BrokenQuadDecodes(u: string, a: Base64.Alphabet)
    requires |u| >= 4 && BrokenQuad(u[0], u[1], u[2], u[3]) && u[3] != '=' && Base64.DecodeGroups(u, a).Some?
    ensures var t := Base64.DecodeGroups(u, a).value; t != "" && !Continues(t[0]) && !ValidUtf8(t)
  {
    var d0, d1, d2, d3 := FirstGroup(u, a);
    BrokenDigits(u, a, d0, d1, d2, d3);
    BrokenBytesAreInvalid(Base64.DecodeGroups(u, a).value);
  }

  lemma BrokenIsInvalid(s: string, k: nat, a: Base64.Alphabet)
    requires BrokenAt(s, 4 * k) && (forall j :: 0 <= j < 4 * k + 4 ==> s[j] != '=') && Base64.DecodeGroups(s, a).Some?
    ensures !ValidUtf8(Base64.DecodeGroups(s, a).value)
  {
    var t := Base64.DecodeGroups(s, a).value;
    GroupAt(s, k, a);
    BrokenQuadDecodes(s[4 * k..], a);
    if ValidUtf8(t) {
      assert t[3 * k..][0] == t[3 * k];
      RuneStartsAt(t, 3 * k);
    }
  }

  // ---- Names in any case ----

  /** Letters in either case, digits, and the two marks of method names. */
  predicate AnyCase(m: string) { MethodText(Lower(m)) }

  lemma AnyCaseChars(m: string)
    requires AnyCase(m)
    ensures m != "" && forall i :: 0 <= i < |m| ==> ' ' < m[i] <= 'z' && m[i] != ':' && m[i] != '=' && m[i] != '@'
  {
    forall i | 0 <= i < |m|
      ensures ' ' < m[i] <= 'z' && m[i] != ':' && m[i] != '=' && m[i] != '@'
    {
      assert MethodChar(Lower(m)[i]);
    }
  }

  lemma SafeInAnyCase(m: string)
    requires ColonSafe(Lower(m)) && AnyCase(m)
    ensures ColonSafe(m)
  {
    var n := Lower(m);
    forall i | 0 <= i < |m|
      ensures ColonSafeAt(m, i)
    {
      assert ColonSafeAt(n, i);
      assert LowerChar(n[i]) == LowerChar(m[i]);
      assert i + 1 < |m| ==> LowerChar(n[i + 1]) == LowerChar(m[i + 1]);
    }
  }

  lemma BrokenInAnyCase(m: string, i: nat)
    requires BrokenAt(Lower(m), i)
    ensures BrokenAt(m, i)
  {
    assert forall j :: i <= j < i + 4 ==> Lower(m)[j] == LowerChar(m[j]);
  }

  lemma SafeWithPadding(m: string)
    requires ColonSafe(m)
    ensures ColonSafe(Keys.Repad(m))
  {
    var s := Keys.Repad(m);
    forall i | 0 <= i < |s|
      ensures ColonSafeAt(s, i)
    {
      if i < |m| {
        assert ColonSafeAt(m, i);
      }
    }
  }

  lemma KnownIsSafe(n: string)
    requires KnownMethod(n)
    ensures ColonSafe(n) || Broken(n)
  {
    if n in ALIASES {
      AliasIsSafe(n);
    } else if n in AEAD_METHODS {
      AeadIsSafe(n);
    } else if n in METHODS_2022 {
      Method2022IsSafe(n);
    } else {
      StreamIsSafe(n);
    }
  }

  lemma SafeNameHasNoColon(m: string, a: Base64.Alphabet)
    requires AnyCase(m) && ColonSafe(Lower(m)) && Base64.DecodeGroups(Keys.Repad(m), a).Some?
    ensures ':' !in Base64.DecodeGroups(Keys.Repad(m), a).value
  {
    SafeInAnyCase(m);
    SafeWithPadding(m);
    NoColon(Keys.Repad(m), a);
  }

  lemma BrokenNameIsInvalid(m: string, k: nat, a: Base64.Alphabet)
    requires AnyCase(m) && BrokenAt(Lower(m), 4 * k) && Base64.DecodeGroups(Keys.Repad(m), a).Some?
    ensures !ValidUtf8(Base64.DecodeGroups(Keys.Repad(m), a).value)
  {
    AnyCaseChars(m);
    BrokenInAnyCase(m, 4 * k);
    BrokenIsInvalid(Keys.Repad(m), k, a);
  }

  /** Whatever a method's name decodes to, it is no printable text with a ':'. */
  lemma NoCredentials(m: string, a: Base64.Alphabet)
    requires KnownMethod(Lower(m))
    ensures var r := Base64.DecodeGroups(Keys.Repad(m), a); r.Some? ==> ':' !in r.value || !ValidUtf8(r.value)
  {
    KnownIsText(Lower(m));
    KnownIsSafe(Lower(m));
    if Base64.DecodeGroups(Keys.Repad(m), a).Some? {
      if ColonSafe(Lower(m)) {
        SafeNameHasNoColon(m, a);
      } else if BrokenAt(Lower(m), 4) {
        BrokenNameIsInvalid(m, 1, a);
      } else if BrokenAt(Lower(m), 8) {
        BrokenNameIsInvalid(m, 2, a);
      } else {
        BrokenNameIsInvalid(m, 3, a);
      }
    }
  }

  /** How the tolerant decoder reads a method name. */
  lemma DecodedMethod(m: string)
    requires AnyCase(m)
    ensures var text := Keys.Repad(m);
            Keys.DecodeFaultTolerant(m)
            == if Base64.DecodeGroups(text, Base64.Std).Some? then Base64.DecodeGroups(text, Base64.Std)
               else Base64.DecodeGroups(text, Base64.Url)
  {
    AnyCaseChars(m);
    assert TrimPrefix(m, Keys.BOM) == m by {
      assert Keys.BOM[0] as int == 0xEF;
    }
    TrimSpaceOfTrimmed(m);
    Keys.StripsNothing(m);
    Base64.NoBreaksToDrop(Keys.Repad(m));
  }

  /** No spelling of a method, in any case and with any white space around it, is opened as
      base64 userinfo. */
  lemma MethodIsNeverOpened(m: string, password: string)
    requires NormalizeMethod(m) in SUPPORTED
    ensures OpenUserinfo("ss", Credentials(m, password)) == Credentials(m, password)
  {
    if IsBase64CharsOnly(m) {
      assert IsBase64Char(m[0]) && IsBase64Char(m[|m| - 1]);
      TrimSpaceOfTrimmed(m);
      KnownIsText(Lower(m));
      DecodedMethod(m);
      NoCredentials(m, Base64.Std);
      NoCredentials(m, Base64.Url);
    }
  }

  lemma SpelledMethodChars(m: string)
    requires NormalizeMethod(m) in SUPPORTED
    ensures ':' !in m && IsBytes(m)
  {
    KnownIsText(Lower(TrimSpace(m)));
    AnyCaseChars(TrimSpace(m));
    forall i | 0 <= i < |m|
      ensures m[i] != ':' && m[i] as int < 256
    {
      if !IsSpace(m[i]) {
        Keys.TrimKeeps(m, m[i]);
      }
    }
  }

  // ---- The legacy form ----

  function LegacyText(m: string, password: string, host: string, port: nat): string {
    m + ":" + password + "@" + HostPort(host, port)
  }

  function LegacyUri(text: string, a: Base64.Alphabet, padded: bool, frag: string): string {
    "ss://" + (Base64.Encode(text, a, padded) + Tail("", frag))
  }

  function SpeltUser(m: string, password: string): string {
    Escape(m, UserPassword) + ":" + Escape(password, UserPassword)
  }

  predicate UserPart(s: string) { forall i :: 0 <= i < |s| ==> UserChar(s[i]) && s[i] != ':' && s[i] != '@' }

  lemma {:induction false} EscapedUserPart(s: string)
    ensures UserPart(Escape(s, UserPassword))
  {
    if s != "" {
      EscapedUserPart(s[1..]);
      assert UserPart(EscapeByte(s[0], UserPassword));
    }
  }

  lemma SpeltUserParses(m: string, password: string)
    requires IsBytes(m) && IsBytes(password)
    ensures AllUserChars(SpeltUser(m, password))
    ensures ParseUserinfo(Some(SpeltUser(m, password))) == Some(Credentials(m, password))
  {
    EscapedUserPart(m);
    EscapedUserPart(password);
    PathRoundTrip(m, UserPassword);
    PathRoundTrip(password, UserPassword);
    CutPresent(Escape(m, UserPassword), ':', Escape(password, UserPassword));
  }

  lemma SpellsOut(m: string, password: string, host: string, port: nat)
    requires ':' !in m && ValidHost(host)
    ensures '@' in LegacyText(m, password, host, port) && ':' in LegacyText(m, password, host, port)
    ensures SpellOut(LegacyText(m, password, host, port)) == SpeltUser(m, password) + "@" + HostPort(host, port)
  {
    var hp := HostPort(host, port);
    ValidHostChars(host, port);
    assert LegacyText(m, password, host, port) == (m + ":" + password) + ['@'] + hp;
    LastIndexByteAt(m + ":" + password, '@', hp);
    CutPresent(m, ':', password);
  }

  predicate BodyChar(c: char) { BlobChar(c) || c == '+' || c == '/' || c == '=' }

  predicate BodyText(s: string) { s != "" && forall i :: 0 <= i < |s| ==> BodyChar(s[i]) }

  lemma EncodedIsBodyText(text: string, a: Base64.Alphabet, padded: bool)
    requires text != ""
    ensures BodyText(Base64.Encode(text, a, padded))
  {
    var body := Base64.Encode(text, a, padded);
    Base64.EncodedChars(text, a, padded);
    Keys.EncodeIsTrimmed(text, a, padded);
    forall i | 0 <= i < |body|
      ensures BodyChar(body[i])
    {
      assert body[i] in body;
    }
  }

  lemma BodyTextFacts(s: string)
    requires BodyText(s)
    ensures IsBase64CharsOnly(s) && '@' !in s && Keys.StripBlanks(s) == s
    ensures forall i :: 0 <= i < |s| ==> s[i] !in "?#"
  {
  }

  lemma EncodedBody(text: string, a: Base64.Alphabet, padded: bool)
    requires text != "" && IsBytes(text)
    ensures BodyText(Base64.Encode(text, a, padded))
    ensures Keys.DecodeFaultTolerant(Base64.Encode(text, a, padded)) == Some(text)
  {
    EncodedIsBodyText(text, a, padded);
    BodyTextFacts(Base64.Encode(text, a, padded));
    Keys.ReadsAllEncodings(text, a, padded, Base64.Encode(text, a, padded));
  }

  lemma LegacyIsSpeltOut(m: string, password: string, host: string, port: nat, a: Base64.Alphabet, padded: bool,
          frag: string)
    requires ':' !in m && ValidHost(host) && IsBytes(LegacyText(m, password, host, port))
    ensures NormalizeLegacy(LegacyUri(LegacyText(m, password, host, port), a, padded, frag))
            == PrintUrl("ss", Some(SpeltUser(m, password)), host, port, "", frag)
  {
    var text := LegacyText(m, password, host, port);
    var body := Base64.Encode(text, a, padded);
    SpellsOut(m, password, host, port);
    EncodedBody(text, a, padded);
    BodyTextFacts(body);
    IndexAnyAt(body, Tail("", frag), "?#");
    LegacyCut(body, Tail("", frag), text);
    PrintedWithoutQuery(SpeltUser(m, password), host, port, frag);
  }

  lemma LegacyCut(body: string, tail: string, text: string)
    requires IndexAny(body + tail, "?#") == |body| && '@' !in body && IsBase64CharsOnly(body)
    requires Keys.DecodeFaultTolerant(body) == Some(text) && '@' in text && ':' in text
    ensures NormalizeLegacy("ss://" + (body + tail)) == "ss://" + SpellOut(text) + tail
  {
  }

  lemma PrintedWithoutQuery(user: string, host: string, port: nat, frag: string)
    ensures PrintUrl("ss", Some(user), host, port, "", frag)
            == "ss://" + (user + "@" + HostPort(host, port)) + Tail("", frag)
  {
  }

  lemma RawColon(user: string, host: string, port: nat, query: string, frag: string)
    requires AllUserChars(user) && ':' in user && ValidHost(host)
    ensures RawUserinfoHasColon(PrintUrl("ss", Some(user), host, port, query, frag))
  {
    var hp := HostPort(host, port);
    PrintedShape(user, host, port, query, frag);
    AuthorityOfPrinted(user + "@" + hp, query, frag);
    LastIndexByteAt(user, '@', hp);
  }

  lemma LegacyBytes(m: string, password: string, host: string, port: nat)
    requires IsBytes(m) && IsBytes(password) && ValidHost(host)
    ensures IsBytes(LegacyText(m, password, host, port))
  {
    ValidHostChars(host, port);
    var hp := HostPort(host, port);
    assert IsBytes(hp) by {
      assert forall c :: AuthorityChar(c) ==> c as int < 256;
    }
  }

  lemma LegacyUrl(m: string, password: string, host: string, port: nat, name: string)
    requires NormalizeMethod(m) in SUPPORTED && IsBytes(password) && IsBytes(name)
    requires ValidHost(host) && port < PORT_LIMIT
    ensures var text := PrintUrl("ss", Some(SpeltUser(m, password)), host, port, "", Escape(name, Fragment));
            var u := UrlSchema("ss", m, password, host, PortOrDefault(port), name, map[]);
            UrlOf(text, DEFAULT_PORT, []) == Some(u) && CredentialsOf(u, text) == Credentials(m, password)
  {
    SpelledMethodChars(m);
    SpeltUserParses(m, password);
    LegacyParses(m, password, host, port, name);
    RawColon(SpeltUser(m, password), host, port, "", Escape(name, Fragment));
  }

  lemma LegacyParses(m: string, password: string, host: string, port: nat, name: string)
    requires NormalizeMethod(m) in SUPPORTED && IsBytes(name) && ValidHost(host) && port < PORT_LIMIT
    requires AllUserChars(SpeltUser(m, password))
    requires ParseUserinfo(Some(SpeltUser(m, password))) == Some(Credentials(m, password))
    ensures var text := PrintUrl("ss", Some(SpeltUser(m, password)), host, port, "", Escape(name, Fragment));
            UrlOf(text, DEFAULT_PORT, []) == Some(UrlSchema("ss", m, password, host, PortOrDefault(port), name, map[]))
  {
    MethodIsNeverOpened(m, password);
    assert EncodeQuery(PairsIn([], map[])) == "";
    ParsePrintedLink("ss", Some(SpeltUser(m, password)), Credentials(m, password), host, port, map[], [], [], name,
            Fragment, DEFAULT_PORT);
  }

  /** The legacy form, in any of the four encodings, with any spelling of a method and any bytes
      at all in the password: everything comes back, a 2022 password when it is one that the
      parser leaves alone. */
  lemma LegacyRoundTrip(m: string, cipher: string, password: string, host: string, port: nat, name: string,
          a: Base64.Alphabet, padded: bool)
    requires StandsFor(Lower(TrimSpace(m)), cipher) && IsBytes(password) && IsBytes(name)
    requires ValidHost(host) && port < PORT_LIMIT
    ensures OutboundOf(LegacyUri(LegacyText(m, password, host, port), a, padded, Escape(name, Fragment)), [])
            == Ok(Outbound(name, host, if port == 0 then 443 else port, cipher, password, "", ""))
            <==> (HasPrefix(cipher, "2022-") ==> StableSegments(Split(password, ':')))
  {
    CiphersExactly(m, cipher);
    SpelledMethodChars(m);
    LegacyBytes(m, password, host, port);
    LegacyIsSpeltOut(m, password, host, port, a, padded, Escape(name, Fragment));
    LegacyUrl(m, password, host, port, name);
    NoPlugin();
    var u := UrlSchema("ss", m, password, host, PortOrDefault(port), name, map[]);
    MadeOutbound(u, Credentials(m, password), Plugin("", ""));
    FixedPasswordStable(password);
    EmptyIsStable();
  }

  lemma EmptyIsStable()
    ensures StableSegments(Split("", ':'))
  {
  }
}
