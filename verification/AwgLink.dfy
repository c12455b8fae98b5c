/**
 A WireGuard or AmneziaWG endpoint printed as a share link (uriFromSingboxEndpoint,
 xray2sing/ray2sing/singbox_ingest.go) and read back (AWGSingbox, xray2sing/ray2sing/awg.go).
 */
module AwgLink {
  import opened Common
  import opened GoStrings
  import opened Urls
  import opened ShareUrl
  import opened Awg
  import AwgIni
  import Base64
  import Keys
  import ObfGrammar

  // ---- The endpoint as JSON carries it ----

  datatype SingboxPeer = SingboxPeer(address: string, port: nat, publicKey: string, preSharedKey: string,
                                     presharedKey: string, allowedIPs: seq<string>, keepalive: nat, reserved: seq<int>)

  datatype SingboxEndpoint = SingboxEndpoint(kind: string, tag: string, privateKey: string, address: seq<string>,
                                             mtu: nat, listenPort: nat, workers: int, integratedTun: bool, noise: bool,
                                             peers: seq<SingboxPeer>, obfuscation: Obfuscation)

  /** The printer's test: any parameter at all. */
  predicate IsAwg(o: Obfuscation) {
    (exists k :: k in o.numbers && o.numbers[k] != 0) || (exists k :: k in o.texts && o.texts[k] != "")
  }

  // ---- The printer ----

  predicate Printable(ep: SingboxEndpoint) {
    && (Lower(ep.kind) == "wireguard" || Lower(ep.kind) == "awg")
    && |ep.peers| == 1 && ep.listenPort == 0 && !ep.integratedTun && !ep.noise
    && ep.privateKey != "" && ep.peers[0].address != "" && ep.peers[0].port != 0 && ep.peers[0].publicKey != ""
  }

  const NUMBER_ORDER: seq<string> := ["jc", "jmin", "jmax", "s1", "s2", "s3", "s4", "itime"]
  const TEXT_ORDER: seq<string> := ["h1", "h2", "h3", "h4", "i1", "i2", "i3", "i4", "i5", "j1", "j2", "j3"]

  /** The parameters that both kinds of link carry. */
  datatype Param =
    PrivateKey | PeerPublicKey | PresharedKey | Address | AllowedIPs | Keepalive | Reserved | Mtu | Workers

  function Name(p: Param): string {
    match p
    case PrivateKey => "privatekey"
    case PeerPublicKey => "peerpublickey"
    case PresharedKey => "presharedkey"
    case Address => "address"
    case AllowedIPs => "allowedips"
    case Keepalive => "keepalive"
    case Reserved => "reserved"
    case Mtu => "mtu"
    case Workers => "workers"
  }

  function ParamOf(k: string): Option<Param> {
    if k == "privatekey" then Some(PrivateKey)
    else if k == "peerpublickey" then Some(PeerPublicKey)
    else if k == "presharedkey" then Some(PresharedKey)
    else if k == "address" then Some(Address)
    else if k == "allowedips" then Some(AllowedIPs)
    else if k == "keepalive" then Some(Keepalive)
    else if k == "reserved" then Some(Reserved)
    else if k == "mtu" then Some(Mtu)
    else if k == "workers" then Some(Workers)
    else None
  }

  const PARAMS: seq<Param> :=
    [PrivateKey, PeerPublicKey, PresharedKey, Address, AllowedIPs, Keepalive, Reserved, Mtu, Workers]

  const SHARED_KEYS: set<string> := set p | p in PARAMS :: Name(p)
  const LINK_KEYS: set<string> := SHARED_KEYS + NUMBER_KEYS + TEXT_KEYS

  function Decimals(ns: seq<int>): (r: seq<string>)
    ensures |r| == |ns|
  {
    seq(|ns|, i requires 0 <= i < |ns| => ItoaInt(ns[i]))
  }

  function When(b: bool, v: string): Option<string> { if b then Some(v) else None }

  /** The value that a link carries for a parameter, if any. */
  function Shared(ep: SingboxEndpoint, param: Param): Option<string>
    requires |ep.peers| == 1
  {
    var p := ep.peers[0];
    match param
    case PrivateKey => Some(ep.privateKey)
    case PeerPublicKey => Some(p.publicKey)
    case PresharedKey => When(Psk(p) != "", Psk(p))
    case Address => When(Join(ep.address, ',') != "", Join(ep.address, ','))
    case AllowedIPs => When(p.allowedIPs != [], Join(p.allowedIPs, ','))
    case Keepalive => When(p.keepalive > 0, Itoa(p.keepalive))
    case Reserved => When(p.reserved != [], Join(Decimals(p.reserved), ','))
    case Mtu => When(ep.mtu > 0, Itoa(ep.mtu))
    case Workers => When(ep.workers > 0, ItoaInt(ep.workers))
  }

  function Psk(p: SingboxPeer): string { OrDefault(p.preSharedKey, p.presharedKey) }

  function Obfuscated(o: Obfuscation, k: string): Option<string> {
    if k in o.numbers then When(o.numbers[k] != 0, ItoaInt(o.numbers[k]))
    else if k in o.texts then When(o.texts[k] != "", o.texts[k])
    else None
  }

  function Carried(ep: SingboxEndpoint, k: string): Option<string>
    requires |ep.peers| == 1
  {
    if ParamOf(k).Some? then Shared(ep, ParamOf(k).value)
    else if IsAwg(ep.obfuscation) then Obfuscated(ep.obfuscation, k)
    else None
  }

  /** The query restricted to some parameters; over all of them it is what is printed. */
  function QueryOver(ep: SingboxEndpoint, keys: set<string>): Params
    requires |ep.peers| == 1
  {
    map k | k in keys && Carried(ep, k).Some? :: Carried(ep, k).value
  }

  function QueryOf(ep: SingboxEndpoint): Params
    requires |ep.peers| == 1
  {
    QueryOver(ep, LINK_KEYS)
  }

  function SchemeOf(ep: SingboxEndpoint): string { if IsAwg(ep.obfuscation) then "awg" else "wireguard" }

  function LinkText(q: Params, ep: SingboxEndpoint, order: seq<string>): string
    requires |ep.peers| == 1 && Lists(order, q)
  {
    var p := ep.peers[0];
    var name := OrDefault(ep.tag, p.address);
    PrintUrl(SchemeOf(ep), None, p.address, p.port, EncodeQuery(PairsIn(order, q)), Escape(name, Fragment))
  }

  /** The link; `order` is the order in which the query is printed, in the source the sorted one. */
  function UriOf(ep: SingboxEndpoint, order: seq<string>): Option<string>
    requires |ep.peers| == 1 ==> Lists(order, QueryOf(ep))
  {
    if Printable(ep) then Some(LinkText(QueryOf(ep), ep, order)) else None
  }

  // ---- The parser ----

  function NonEmpty(parts: seq<string>): seq<string> {
    if parts == [] then [] else (if parts[0] == "" then [] else [parts[0]]) + NonEmpty(parts[1..])
  }

  function ParsePrefixes<P>(raw: string, parse: string -> Option<P>): Option<seq<P>> {
    ParseAll(NonEmpty(Split(raw, ',')), parse)
  }

  function GetInt(params: Params, key: string): int { if key in params then Atoi(params[key]).value else 0 }

  function GetUint16(params: Params, keys: seq<string>): nat {
    if keys == [] then 0
    else if keys[0] in params then Uint16(Atoi(params[keys[0]]).value)
    else GetUint16(params, keys[1..])
  }

  function GetMtu(params: Params): nat {
    if "mtu" in params then (match ParseUint(params["mtu"], 0x1_0000_0000) case Some(n) => n case None => 0) else 0
  }

  /** Only a positive count is kept. */
  function GetWorkers(params: Params): int {
    if "workers" in params && Atoi(params["workers"]).ok && Atoi(params["workers"]).value > 0
    then Atoi(params["workers"]).value else 0
  }

  function GetNumbers(params: Params): (m: map<string, int>)
    ensures m.Keys == NUMBER_KEYS
  {
    map k | k in NUMBER_KEYS :: Clamp(GetInt(params, k), Minimum(k))
  }

  function GetTexts(params: Params): (m: map<string, string>)
    ensures m.Keys == TEXT_KEYS
  {
    map k | k in TEXT_KEYS :: OneOf(params, [k])
  }

  function GetObfuscation(params: Params): (o: Obfuscation)
    ensures Total(o)
  {
    Obfuscation(GetNumbers(params), GetTexts(params))
  }

  function BeforeAt(s: string): string { s[..IndexByte(s, '@')] }

  function PrivateKeyOf(u: UrlSchema): string {
    var pk := OneOf(u.params, ["privatekey", "pk"]);
    BeforeAt(if pk == "" then u.username else pk)
  }

  function GetReserved(params: Params): Option<seq<nat>> {
    if "reserved" in params then ParseReservedList(params["reserved"]) else Some([])
  }

  function PublicKeyOf(params: Params): string { OneOf(params, ["peerpublickey", "publickey", "pub", "peerpub"]) }

  function PskOf(params: Params): string { OneOf(params, ["presharedkey", "psk"]) }

  function KeepaliveOf(params: Params): nat { GetUint16(params, ["keepalive", "persistentkeepalive", "pk_keepalive"]) }

  /** The peer, its keys normalised; the private key is only checked here. */
  function MakePeer<P>(privateKey: string, raw: Peer<P>, reserved: Option<seq<nat>>): Result<Peer<P>, Failure> {
    if privateKey == "" then Err(MissingPrivateKey)
    else if raw.publicKey == "" then Err(MissingPublicKey)
    else if raw.address == "" || raw.port == 0 then Err(MissingEndpoint)
    else
      match (Keys.NormalizeWgKey(privateKey), Keys.NormalizeWgKey(raw.publicKey), Keys.NormalizeWgKey(raw.presharedKey))
      case (Some(_), Some(pub), Some(psk)) =>
        (match reserved
         case None => Err(BadReserved)
         case Some(bytes) => Ok(raw.(publicKey := pub, presharedKey := psk, reserved := bytes)))
      case _ => Err(BadKey)
  }

  function RawPeer<P>(u: UrlSchema, allowedIPs: seq<P>): Peer<P> {
    Peer(u.hostname, u.port, PublicKeyOf(u.params), PskOf(u.params), allowedIPs, KeepaliveOf(u.params), [])
  }

  function GetPeer<P>(u: UrlSchema, allowedIPs: seq<P>): Result<Peer<P>, Failure> {
    MakePeer(PrivateKeyOf(u), RawPeer(u, allowedIPs), GetReserved(u.params))
  }

  /** The checks of the obfuscation parameters, and the kind that they make the endpoint. */
  function Classify<P>(tag: string, key: string, addresses: seq<P>, mtu: nat, workers: int,
          o: Obfuscation, peer: Peer<P>)
    : Result<Endpoint<P>, Failure>
    requires Total(o)
  {
    if !HeadersOk(o) then Err(BadHeader)
    else if !SpecsOk(o) then Err(BadSpec)
    else if LooksPlain(o) then Ok(WireGuard(OrDefault(tag, "WG"), key, addresses, mtu, workers, [peer]))
    else Ok(AmneziaWG(OrDefault(tag, "AWG"), key, addresses, mtu, o, [peer]))
  }

  function Build<P>(u: UrlSchema, addresses: seq<P>, peer: Peer<P>): Result<Endpoint<P>, Failure> {
    match Keys.NormalizeWgKey(PrivateKeyOf(u))
    case None => Err(BadKey)
    case Some(key) =>
      Classify(u.name, key, addresses, GetMtu(u.params), GetWorkers(u.params), GetObfuscation(u.params), peer)
  }

  function FromUrl<P>(u: UrlSchema, parse: string -> Option<P>, everything: seq<P>): Result<Endpoint<P>, Failure> {
    match ParsePrefixes(OneOf(u.params, ["ip", "address"]), parse)
    case None => Err(BadAddress)
    case Some(addresses) =>
      match ParsePrefixes(OneOf(u.params, ["localaddress", "allowedips"]), parse)
      case None => Err(BadAddress)
      case Some(allowed) =>
        match GetPeer(u, if allowed == [] then everything else allowed)
        case Err(e) => Err(e)
        case Ok(peer) => Build(u, addresses, peer)
  }

  /** The part after "://" may be base64. */
  function OpenBody(raw: string): string {
    var i := Index(raw, "://");
    if i == |raw| then raw else raw[..i] + "://" + Keys.DecodeIfNeeded(raw[i + 3..])
  }

  /** AWGSingbox; NoParameters stands for its answer without endpoint and without error. */
  function LinkOf<P>(raw: string, keys: seq<string>, parse: string -> Option<P>, everything: seq<P>)
    : Result<Endpoint<P>, Failure>
  {
    var text := OpenBody(raw);
    match UrlOf(text, 0, keys)
    case Some(u) =>
      if u.params != map[] then FromUrl(u, parse, everything)
      else (match AwgIni.IniOf(text, parse, everything) case Ok(e) => Ok(e) case Err(_) => Err(NoParameters))
    case None =>
      match AwgIni.IniOf(text, parse, everything) case Ok(e) => Ok(e) case Err(_) => Err(BadUrl)
  }

  // ---- What a valid endpoint is, and what it means ----

  ghost predicate IsKey(k: string) {
    exists b: string :: IsBytes(b) && |b| == Keys.WG_KEY_BYTES && k == Base64.Encode(b, Base64.Std, true)
  }

  predicate IsAddress<P>(s: string, parse: string -> Option<P>) {
    s != "" && IsBytes(s) && ',' !in s && Trimmed(s) && parse(s).Some?
  }

  predicate AreAddresses<P>(ss: seq<string>, parse: string -> Option<P>) {
    forall i :: 0 <= i < |ss| ==> IsAddress(ss[i], parse)
  }

  function Addresses<P>(ss: seq<string>, parse: string -> Option<P>): (r: seq<P>)
    requires AreAddresses(ss, parse)
    ensures |r| == |ss|
  {
    seq(|ss|, i requires 0 <= i < |ss| => parse(ss[i]).value)
  }

  predicate ValidObfuscation(o: Obfuscation) {
    && Total(o) && HeadersOk(o) && SpecsOk(o)
    && (forall k :: k in NUMBER_KEYS ==> o.numbers[k] == 0 || Minimum(k) <= o.numbers[k] < INT64_LIMIT)
    && (forall k :: k in TEXT_KEYS ==> IsBytes(o.texts[k]))
  }

  ghost predicate ValidPeer<P>(p: SingboxPeer, parse: string -> Option<P>) {
    && ValidHost(p.address) && 0 < p.port < PORT_LIMIT && IsKey(p.publicKey)
    && (Psk(p) == "" || IsKey(Psk(p)))
    && AreAddresses(p.allowedIPs, parse) && p.keepalive < 0x1_0000
    && ReservedCount(|p.reserved|) && AreBytes(p.reserved)
  }

  ghost predicate Valid<P>(ep: SingboxEndpoint, parse: string -> Option<P>) {
    && (Lower(ep.kind) == "wireguard" || Lower(ep.kind) == "awg")
    && ep.listenPort == 0 && !ep.integratedTun && !ep.noise && IsBytes(ep.tag) && IsKey(ep.privateKey)
    && AreAddresses(ep.address, parse) && ep.mtu < 0x1_0000_0000 && 0 <= ep.workers < INT64_LIMIT
    && ValidObfuscation(ep.obfuscation) && |ep.peers| == 1 && ValidPeer(ep.peers[0], parse)
  }

  predicate AreBytes(ns: seq<int>) { forall i :: 0 <= i < |ns| ==> 0 <= ns[i] < 256 }

  function Nats(ns: seq<int>): (r: seq<nat>)
    requires AreBytes(ns)
    ensures |r| == |ns|
  {
    seq(|ns|, i requires 0 <= i < |ns| => ns[i])
  }

  /** The peer in the parser's terms; without allowed addresses it routes `defaults`. */
  function MeantPeer<P>(p: SingboxPeer, parse: string -> Option<P>, defaults: seq<P>): Peer<P>
    requires AreAddresses(p.allowedIPs, parse) && AreBytes(p.reserved)
  {
    Peer(p.address, p.port, p.publicKey, Psk(p),
         if p.allowedIPs == [] then defaults else Addresses(p.allowedIPs, parse), p.keepalive, Nats(p.reserved))
  }

  /** The endpoint in the parser's terms, as one kind or the other. A nameless one is called
      after its address. */
  ghost function MeantAs<P>(ep: SingboxEndpoint, awg: bool, parse: string -> Option<P>, defaults: seq<P>): Endpoint<P>
    requires Valid(ep, parse)
  {
    var p := ep.peers[0];
    var tag, addresses := OrDefault(ep.tag, p.address), Addresses(ep.address, parse);
    if awg then AmneziaWG(tag, ep.privateKey, addresses, ep.mtu, ep.obfuscation, [MeantPeer(p, parse, defaults)])
    else WireGuard(tag, ep.privateKey, addresses, ep.mtu, ep.workers, [MeantPeer(p, parse, defaults)])
  }

  /** The endpoint itself. */
  ghost function Meant<P>(ep: SingboxEndpoint, parse: string -> Option<P>): Endpoint<P>
    requires Valid(ep, parse)
  {
    MeantAs(ep, Lower(ep.kind) == "awg", parse, [])
  }

  // ---- The printed query ----

  lemma KeyFacts(k: string)
    requires IsKey(k)
    ensures k != "" && IsBytes(k) && ' ' !in k && '@' !in k && Keys.NormalizeWgKey(k) == Some(k)
  {
    var b: string :| IsBytes(b) && |b| == Keys.WG_KEY_BYTES && k == Base64.Encode(b, Base64.Std, true);
    EncodedKeyChars(b);
    Keys.EncodeIsTrimmed(b, Base64.Std, true);
    TrimSpaceOfTrimmed(k);
    Keys.WgKeyFromAnyEncoding(b, Base64.Std, true, k);
  }

  lemma EncodedKeyChars(b: string)
    ensures var k := Base64.Encode(b, Base64.Std, true); IsBytes(k) && ' ' !in k && '@' !in k
  {
    var k := Base64.Encode(b, Base64.Std, true);
    Base64.EncodedChars(b, Base64.Std, true);
    forall i | 0 <= i < |k|
      ensures k[i] as int < 256 && k[i] != ' ' && k[i] != '@'
    {
      assert k[i] in k;
    }
  }

  lemma NameIsPlain(p: Param)
    ensures PlainKey(Name(p))
  {
  }

  lemma NumberKeysArePlain(k: string)
    requires k in NUMBER_KEYS
    ensures PlainKey(k) && ParamOf(k) == None
  {
  }

  lemma TextKeysArePlain(k: string)
    requires k in TEXT_KEYS
    ensures PlainKey(k) && ParamOf(k) == None
  {
  }

  lemma NumberKeysAreNotRaw(k: string)
    requires k in NUMBER_KEYS
    ensures k !in RAW_KEYS
  {
  }

  lemma TextKeysAreNotRaw(k: string)
    requires k in TEXT_KEYS
    ensures k !in RAW_KEYS
  {
  }

  lemma ObfuscationKeys(k: string)
    requires k in NUMBER_KEYS || k in TEXT_KEYS
    ensures PlainKey(k) && ParamOf(k) == None && k !in RAW_KEYS
  {
    if k in NUMBER_KEYS {
      NumberKeysArePlain(k);
      NumberKeysAreNotRaw(k);
    } else {
      TextKeysArePlain(k);
      TextKeysAreNotRaw(k);
    }
  }

  lemma DecimalsAreBytes(n: int)
    ensures IsBytes(ItoaInt(n))
  {
  }

  lemma {:induction false} JoinedBytes(parts: seq<string>, c: char)
    requires c as int < 256 && forall i :: 0 <= i < |parts| ==> IsBytes(parts[i])
    ensures IsBytes(Join(parts, c))
  {
    if |parts| > 1 {
      JoinedBytes(parts[1..], c);
    }
  }

  lemma ListIsBytes(ns: seq<int>)
    ensures IsBytes(Join(Decimals(ns), ','))
  {
    forall i | 0 <= i < |ns|
      ensures IsBytes(Decimals(ns)[i])
    {
      DecimalsAreBytes(ns[i]);
    }
    JoinedBytes(Decimals(ns), ',');
  }

  predicate IsKeyParam(p: Param) { p.PrivateKey? || p.PeerPublicKey? || p.PresharedKey? }

  lemma KeysPrint<P>(ep: SingboxEndpoint, param: Param, parse: string -> Option<P>)
    requires Valid(ep, parse) && IsKeyParam(param) && Shared(ep, param).Some?
    ensures IsBytes(Shared(ep, param).value) && ' ' !in Shared(ep, param).value
  {
    KeyFacts(Shared(ep, param).value);
  }

  lemma ListsPrint<P>(ep: SingboxEndpoint, param: Param, parse: string -> Option<P>)
    requires |ep.peers| == 1 && AreAddresses(ep.address, parse) && AreAddresses(ep.peers[0].allowedIPs, parse)
    requires (param.Address? || param.AllowedIPs? || param.Reserved?) && Shared(ep, param).Some?
    ensures IsBytes(Shared(ep, param).value)
  {
    match param
    case Address => AddressListIsBytes(ep.address, parse);
    case AllowedIPs => AddressListIsBytes(ep.peers[0].allowedIPs, parse);
    case Reserved => ListIsBytes(ep.peers[0].reserved);
  }

  lemma AddressListIsBytes<P>(ss: seq<string>, parse: string -> Option<P>)
    requires AreAddresses(ss, parse)
    ensures IsBytes(Join(ss, ','))
  {
  }

  lemma SharedPrints<P>(ep: SingboxEndpoint, param: Param, parse: string -> Option<P>)
    requires Valid(ep, parse) && Shared(ep, param).Some?
    ensures IsBytes(Shared(ep, param).value)
    ensures IsKeyParam(param) ==> ' ' !in Shared(ep, param).value
  {
    if IsKeyParam(param) {
      KeysPrint(ep, param, parse);
    } else if param.Address? || param.AllowedIPs? || param.Reserved? {
      ListsPrint(ep, param, parse);
    } else {
      NumbersPrint(ep, param);
    }
  }

  lemma NumbersPrint(ep: SingboxEndpoint, param: Param)
    requires |ep.peers| == 1 && (param.Keepalive? || param.Mtu? || param.Workers?) && Shared(ep, param).Some?
    ensures IsBytes(Shared(ep, param).value)
  {
    DecimalsAreBytes(ep.peers[0].keepalive);
    DecimalsAreBytes(ep.mtu);
    DecimalsAreBytes(ep.workers);
  }

  /** Of the printed parameters only the three keys are read in the raw style. */
  lemma RawParams(p: Param)
    ensures Name(p) in RAW_KEYS ==> IsKeyParam(p)
  {
  }

  lemma CarriedShared(ep: SingboxEndpoint, p: Param)
    requires |ep.peers| == 1
    ensures Carried(ep, Name(p)) == Shared(ep, p)
  {
  }

  lemma CarriedObfuscated(ep: SingboxEndpoint, k: string)
    requires |ep.peers| == 1 && Total(ep.obfuscation) && (k in NUMBER_KEYS || k in TEXT_KEYS)
    ensures Carried(ep, k) == Obfuscated(ep.obfuscation, k)
  {
  }

  /** The query is filled parameter by parameter; the AmneziaWG ones only for an AmneziaWG link. */
  method UriFromSingboxEndpoint(ep: SingboxEndpoint, order: seq<string>) returns (uri: Option<string>)
    requires Total(ep.obfuscation)
    requires |ep.peers| == 1 ==> Lists(order, QueryOf(ep))
    ensures uri == UriOf(ep, order)
  {
    if !Printable(ep) {
      return None;
    }
    var q := FillShared(ep);
    if IsAwg(ep.obfuscation) {
      q := FillBoth(ep, q);
    } else {
      NothingElseCarried(ep);
    }
    uri := Some(LinkText(q, ep, order));
  }

  method FillBoth(ep: SingboxEndpoint, start: Params) returns (q: Params)
    requires |ep.peers| == 1 && Total(ep.obfuscation) && IsAwg(ep.obfuscation) && start == QueryOver(ep, SHARED_KEYS)
    ensures q == QueryOf(ep)
  {
    NumberOrderIsComplete();
    q := FillObfuscation(ep, NUMBER_ORDER, SHARED_KEYS, start);
    TextOrderIsComplete();
    q := FillObfuscation(ep, TEXT_ORDER, SHARED_KEYS + NUMBER_KEYS, q);
  }

  method FillShared(ep: SingboxEndpoint) returns (q: Params)
    requires |ep.peers| == 1
    ensures q == QueryOver(ep, SHARED_KEYS)
  {
    q := map[];
    ghost var done: set<string> := {};
    for i := 0 to |PARAMS|
      invariant done == set j | 0 <= j < i :: Name(PARAMS[j])
      invariant q == QueryOver(ep, done)
    {
      var k, v := Name(PARAMS[i]), Shared(ep, PARAMS[i]);
      CarriedShared(ep, PARAMS[i]);
      OneMore(ep, done, k);
      if v.Some? {
        q := q[k := v.value];
      }
      done := done + {k};
    }
    assert done == SHARED_KEYS by {
      forall p | p in PARAMS
        ensures Name(p) in done
      {
        var j :| 0 <= j < |PARAMS| && PARAMS[j] == p;
      }
    }
  }

  ghost function Elements(names: seq<string>): set<string> { set k | k in names }

  method FillObfuscation(ep: SingboxEndpoint, names: seq<string>, ghost before: set<string>, start: Params)
          returns (q: Params)
    requires |ep.peers| == 1 && Total(ep.obfuscation) && IsAwg(ep.obfuscation)
    requires Elements(names) == NUMBER_KEYS || Elements(names) == TEXT_KEYS
    requires start == QueryOver(ep, before)
    ensures q == QueryOver(ep, before + Elements(names))
  {
    q := start;
    ghost var done := before;
    for i := 0 to |names|
      invariant done == before + Elements(names[..i])
      invariant q == QueryOver(ep, done)
    {
      var k := names[i];
      var v := Obfuscated(ep.obfuscation, k);
      assert k in Elements(names);
      CarriedObfuscated(ep, k);
      OneMore(ep, done, k);
      OneMoreElement(names, i);
      if v.Some? {
        q := q[k := v.value];
      }
      done := done + {k};
    }
    assert names[..|names|] == names;
  }

  lemma OneMoreElement(names: seq<string>, i: nat)
    requires i < |names|
    ensures Elements(names[..i + 1]) == Elements(names[..i]) + {names[i]}
  {
  }

  lemma OneMore(ep: SingboxEndpoint, done: set<string>, k: string)
    requires |ep.peers| == 1
    ensures QueryOver(ep, done + {k})
            == match Carried(ep, k) case Some(v) => QueryOver(ep, done)[k := v] case None => QueryOver(ep, done)
  {
  }

  lemma NumberOrderIsComplete()
    ensures Elements(NUMBER_ORDER) == NUMBER_KEYS
  {
  }

  lemma TextOrderIsComplete()
    ensures Elements(TEXT_ORDER) == TEXT_KEYS
  {
  }

  lemma NothingElseCarried(ep: SingboxEndpoint)
    requires |ep.peers| == 1 && Total(ep.obfuscation) && !IsAwg(ep.obfuscation)
    ensures QueryOver(ep, SHARED_KEYS) == QueryOf(ep)
  {
    forall k | k in NUMBER_KEYS || k in TEXT_KEYS
      ensures Carried(ep, k) == None
    {
      ObfuscationKeys(k);
    }
  }

  lemma SharedPairIsCanonical<P>(ep: SingboxEndpoint, p: Param, parse: string -> Option<P>)
    requires Valid(ep, parse) && Shared(ep, p).Some?
    ensures CanonicalPair(Name(p), Shared(ep, p).value)
  {
    SharedPrints(ep, p, parse);
    NameIsPlain(p);
    PlainKeyIsNormal(Name(p));
    RawParams(p);
  }

  lemma ObfuscationPairIsCanonical(o: Obfuscation, k: string)
    requires ValidObfuscation(o) && (k in NUMBER_KEYS || k in TEXT_KEYS) && Obfuscated(o, k).Some?
    ensures CanonicalPair(k, Obfuscated(o, k).value)
  {
    ObfuscationKeys(k);
    PlainKeyIsNormal(k);
    if k in o.numbers {
      DecimalsAreBytes(o.numbers[k]);
    }
  }

  lemma QueryIsCanonical<P>(ep: SingboxEndpoint, parse: string -> Option<P>)
    requires Valid(ep, parse)
    ensures Canonical(QueryOf(ep))
  {
    var q := QueryOf(ep);
    forall k | k in q
      ensures CanonicalPair(k, q[k])
    {
      if k in SHARED_KEYS {
        var p :| p in PARAMS && k == Name(p);
        CarriedShared(ep, p);
        SharedPairIsCanonical(ep, p, parse);
      } else {
        CarriedObfuscated(ep, k);
        ObfuscationPairIsCanonical(ep.obfuscation, k);
      }
    }
  }

  // ---- Looking parameters up again ----

  lemma SharedLookup(ep: SingboxEndpoint, p: Param)
    requires |ep.peers| == 1
    ensures Name(p) in QueryOf(ep) <==> Shared(ep, p).Some?
    ensures Shared(ep, p).Some? ==> QueryOf(ep)[Name(p)] == Shared(ep, p).value
  {
    NameIsPlain(p);
    CarriedShared(ep, p);
  }

  lemma ObfuscationLookup(ep: SingboxEndpoint, k: string)
    requires |ep.peers| == 1 && Total(ep.obfuscation) && (k in NUMBER_KEYS || k in TEXT_KEYS)
    ensures k in QueryOf(ep) <==> Obfuscated(ep.obfuscation, k).Some?
    ensures k in QueryOf(ep) ==> QueryOf(ep)[k] == Obfuscated(ep.obfuscation, k).value
  {
    CarriedObfuscated(ep, k);
  }

  function Found(q: Params, k: string): Option<string> { if k in q then Some(q[k]) else None }

  /** The query carries the AmneziaWG parameters. */
  ghost predicate CarriesObfuscation(q: Params, o: Obfuscation) {
    forall k :: k in NUMBER_KEYS || k in TEXT_KEYS ==> Found(q, k) == Obfuscated(o, k)
  }

  lemma NumberReadsBack(q: Params, o: Obfuscation, k: string)
    requires CarriesObfuscation(q, o) && ValidObfuscation(o) && k in NUMBER_KEYS
    ensures Clamp(GetInt(q, k), Minimum(k)) == o.numbers[k]
  {
    assert Found(q, k) == Obfuscated(o, k);
    NumbersReadBack(o.numbers[k]);
  }

  lemma TextReadsBack(q: Params, o: Obfuscation, k: string)
    requires CarriesObfuscation(q, o) && ValidObfuscation(o) && k in TEXT_KEYS
    ensures OneOf(q, [k]) == o.texts[k]
  {
    assert Found(q, k) == Obfuscated(o, k);
    ObfuscationKeys(k);
    OneOfPlainNames(q, [k]);
    DisjointKeys(k);
  }

  lemma DisjointKeys(k: string)
    requires k in TEXT_KEYS
    ensures k !in NUMBER_KEYS
  {
  }

  lemma NumbersComeBack(q: Params, o: Obfuscation)
    requires CarriesObfuscation(q, o) && ValidObfuscation(o)
    ensures GetNumbers(q) == o.numbers
  {
    forall k | k in NUMBER_KEYS
      ensures Clamp(GetInt(q, k), Minimum(k)) == o.numbers[k]
    {
      NumberReadsBack(q, o, k);
    }
  }

  lemma TextsComeBack(q: Params, o: Obfuscation)
    requires CarriesObfuscation(q, o) && ValidObfuscation(o)
    ensures GetTexts(q) == o.texts
  {
    forall k | k in TEXT_KEYS
      ensures OneOf(q, [k]) == o.texts[k]
    {
      TextReadsBack(q, o, k);
    }
  }

  /** Every number and every text comes back. */
  lemma ObfuscationReadsBack(q: Params, o: Obfuscation)
    requires CarriesObfuscation(q, o) && ValidObfuscation(o)
    ensures GetObfuscation(q) == o
  {
    NumbersComeBack(q, o);
    TextsComeBack(q, o);
  }

  lemma {:induction false} ListReadsBack<P>(ss: seq<string>, parse: string -> Option<P>)
    requires AreAddresses(ss, parse)
    ensures NonEmpty(ss) == ss && ParseAll(ss, parse) == Some(Addresses(ss, parse))
  {
    if ss != [] {
      assert IsAddress(ss[0], parse);
      TrimSpaceOfTrimmed(ss[0]);
      ListReadsBack(ss[1..], parse);
      assert Addresses(ss, parse) == [parse(ss[0]).value] + Addresses(ss[1..], parse);
    }
  }

  lemma PrefixesReadBack<P>(ss: seq<string>, parse: string -> Option<P>)
    requires AreAddresses(ss, parse)
    ensures ParsePrefixes(Join(ss, ','), parse) == Some(Addresses(ss, parse))
    ensures ss != [] ==> Join(ss, ',') != ""
  {
    ListReadsBack(ss, parse);
    if ss == [] {
      assert Split("", ',') == [""];
      assert [""][1..] == [];
    } else {
      assert Free(ss, ',') by {
        assert forall i :: 0 <= i < |ss| ==> IsAddress(ss[i], parse);
      }
      SplitJoin(ss, ',');
      assert IsAddress(ss[0], parse);
    }
  }

  lemma {:induction false} NoBlankDecimals(ns: seq<int>)
    requires AreBytes(ns)
    ensures NonBlank(Decimals(ns)) == Decimals(ns) && Free(Decimals(ns), ',')
  {
    if ns != [] {
      DecimalReadsBack(ns[0]);
      NoBlankDecimals(ns[1..]);
      assert Decimals(ns) == [ItoaInt(ns[0])] + Decimals(ns[1..]);
      assert Decimals(ns)[1..] == Decimals(ns[1..]);
    }
  }

  lemma ParseBytesStep(part: string, n: nat, rest: seq<string>, ns: seq<nat>)
    requires ParseUint(TrimSpace(part), 256) == Some(n) && ParseBytes(rest) == Some(ns)
    ensures ParseBytes([part] + rest) == Some([n] + ns)
  {
  }

  lemma {:induction false} BytesReadBack(ns: seq<int>)
    requires AreBytes(ns)
    ensures ParseBytes(Decimals(ns)) == Some(Nats(ns))
  {
    if ns != [] {
      DecimalReadsBack(ns[0]);
      BytesReadBack(ns[1..]);
      ParseBytesStep(ItoaInt(ns[0]), ns[0], Decimals(ns[1..]), Nats(ns[1..]));
      DecimalsStep(ns);
    } else {
      assert Decimals(ns) == [] && Nats(ns) == [];
    }
  }

  lemma DecimalsStep(ns: seq<int>)
    requires AreBytes(ns) && ns != []
    ensures Decimals(ns) == [ItoaInt(ns[0])] + Decimals(ns[1..]) && Nats(ns) == [ns[0]] + Nats(ns[1..])
  {
  }

  lemma DecimalReadsBack(n: nat)
    requires n < 256
    ensures ItoaInt(n) != "" && ',' !in ItoaInt(n) && TrimSpace(ItoaInt(n)) == ItoaInt(n)
    ensures ParseUint(ItoaInt(n), 256) == Some(n)
  {
    var s := Itoa(n);
    assert IsDigit(s[0]) && IsDigit(s[|s| - 1]);
    TrimSpaceOfTrimmed(s);
    NumbersReadBack(n);
  }

  lemma ReservedReadsBack(ns: seq<int>)
    requires ns != [] && ReservedCount(|ns|) && AreBytes(ns)
    ensures ParseReservedList(Join(Decimals(ns), ',')) == Some(Nats(ns))
  {
    NoBlankDecimals(ns);
    BytesReadBack(ns);
    SplitJoin(Decimals(ns), ',');
  }

  // ---- Under which names a link carries an endpoint ----

  /** The names a link gives its parameters. The private key stands in the userinfo when it has
      none; `leak` is what the malformed form KEY@host:port leaves behind it. */
  datatype Style = Style(privateKey: Option<string>, leak: string, publicKey: string, presharedKey: string,
                         address: string, allowedIPs: string, keepalive: string)

  /** The names that the parser knows. */
  predicate Accepted(n: Style) {
    && (n.privateKey.Some? ==> n.privateKey.value in ["privatekey", "pk"])
    && (n.leak != "" ==> n.leak[0] == '@')
    && n.publicKey in ["peerpublickey", "publickey", "pub", "peerpub"]
    && n.presharedKey in ["presharedkey", "psk"]
    && n.address in ["ip", "address"]
    && n.allowedIPs in ["localaddress", "allowedips"]
    && n.keepalive in ["keepalive", "persistentkeepalive"]
  }

  /** The printer's own names. */
  const OWN: Style := Style(Some("privatekey"), "", "peerpublickey", "presharedkey", "address", "allowedips",
                            "keepalive")

  /** One of the names has the value, if there is one, and the others have none. */
  ghost predicate Under(q: Params, names: seq<string>, chosen: string, v: Option<string>) {
    && (forall k :: k in names && k != chosen ==> Found(q, k) == None)
    && (chosen in names ==> Found(q, chosen) == v)
  }

  /** The query carries the endpoint's parameters under the names of the style, and whatever
      else it likes under other names. */
  ghost predicate Carries(q: Params, ep: SingboxEndpoint, n: Style)
    requires |ep.peers| == 1
  {
    var p, addresses := ep.peers[0], Join(ep.address, ',');
    && (match n.privateKey
        case Some(k) => Under(q, ["privatekey", "pk"], k, Some(ep.privateKey + n.leak))
        case None => Under(q, ["privatekey", "pk"], "", None))
    && Under(q, ["peerpublickey", "publickey", "pub", "peerpub"], n.publicKey, Some(p.publicKey))
    && Under(q, ["presharedkey", "psk"], n.presharedKey, When(Psk(p) != "", Psk(p)))
    && Under(q, ["ip", "address"], n.address, When(addresses != "", addresses))
    && Under(q, ["localaddress", "allowedips"], n.allowedIPs, When(p.allowedIPs != [], Join(p.allowedIPs, ',')))
    && Under(q, ["keepalive", "persistentkeepalive", "pk_keepalive"], n.keepalive,
             When(p.keepalive > 0, Itoa(p.keepalive)))
    && CarriesScalars(q, ep)
  }

  ghost predicate CarriesScalars(q: Params, ep: SingboxEndpoint)
    requires |ep.peers| == 1
  {
    && Found(q, "reserved") == When(ep.peers[0].reserved != [], Join(Decimals(ep.peers[0].reserved), ','))
    && Found(q, "mtu") == When(ep.mtu > 0, Itoa(ep.mtu))
    && Found(q, "workers") == When(ep.workers > 0, ItoaInt(ep.workers))
  }

  predicate OtherName(k: string) {
    || k == "ip" || k == "psk" || k == "localaddress" || k == "persistentkeepalive" || k == "pk_keepalive"
    || k == "pk" || k == "publickey" || k == "pub" || k == "peerpub"
  }

  lemma NotShared(k: string)
    requires ParamOf(k) == None
    ensures k !in SHARED_KEYS
  {
  }

  lemma NotAnObfuscationKey(k: string)
    requires OtherName(k)
    ensures k !in NUMBER_KEYS && k !in TEXT_KEYS
  {
  }

  lemma NoParam(k: string)
    requires OtherName(k)
    ensures ParamOf(k) == None
  {
  }

  lemma NotALinkKey(k: string)
    requires OtherName(k)
    ensures k !in LINK_KEYS
  {
    NoParam(k);
    NotShared(k);
    NotAnObfuscationKey(k);
  }

  lemma QueryCarriesObfuscation(ep: SingboxEndpoint)
    requires |ep.peers| == 1 && Total(ep.obfuscation)
    ensures CarriesObfuscation(QueryOf(ep), ep.obfuscation)
  {
    forall k | k in NUMBER_KEYS || k in TEXT_KEYS
      ensures Found(QueryOf(ep), k) == Obfuscated(ep.obfuscation, k)
    {
      ObfuscationLookup(ep, k);
    }
  }

  /** The printed query is in the printer's own style. */
  lemma QueryCarries(ep: SingboxEndpoint)
    requires |ep.peers| == 1
    ensures Carries(QueryOf(ep), ep, OWN)
  {
    forall p: Param
      ensures Found(QueryOf(ep), Name(p)) == Shared(ep, p)
    {
      SharedLookup(ep, p);
    }
    forall k | OtherName(k)
      ensures Found(QueryOf(ep), k) == None
    {
      NotALinkKey(k);
    }
    OwnNames(QueryOf(ep), ep);
  }

  lemma OwnName(q: Params, names: seq<string>, chosen: string, v: Option<string>)
    requires forall k :: k in names && k != chosen ==> OtherName(k)
    requires (forall k :: OtherName(k) ==> Found(q, k) == None) && Found(q, chosen) == v
    ensures Under(q, names, chosen, v)
  {
  }

  lemma OwnKeyNames(q: Params, ep: SingboxEndpoint)
    requires |ep.peers| == 1
    requires forall p: Param :: Found(q, Name(p)) == Shared(ep, p)
    requires forall k :: OtherName(k) ==> Found(q, k) == None
    ensures Under(q, ["privatekey", "pk"], "privatekey", Some(ep.privateKey))
    ensures Under(q, ["peerpublickey", "publickey", "pub", "peerpub"], "peerpublickey", Shared(ep, PeerPublicKey))
    ensures Under(q, ["presharedkey", "psk"], "presharedkey", Shared(ep, PresharedKey))
  {
    assert Found(q, Name(PrivateKey)) == Shared(ep, PrivateKey);
    assert Found(q, Name(PeerPublicKey)) == Shared(ep, PeerPublicKey);
    assert Found(q, Name(PresharedKey)) == Shared(ep, PresharedKey);
    OwnName(q, ["privatekey", "pk"], "privatekey", Some(ep.privateKey));
    OwnName(q, ["peerpublickey", "publickey", "pub", "peerpub"], "peerpublickey", Shared(ep, PeerPublicKey));
    OwnName(q, ["presharedkey", "psk"], "presharedkey", Shared(ep, PresharedKey));
  }

  lemma OwnListNames(q: Params, ep: SingboxEndpoint)
    requires |ep.peers| == 1
    requires forall p: Param :: Found(q, Name(p)) == Shared(ep, p)
    requires forall k :: OtherName(k) ==> Found(q, k) == None
    ensures Under(q, ["ip", "address"], "address", Shared(ep, Address))
    ensures Under(q, ["localaddress", "allowedips"], "allowedips", Shared(ep, AllowedIPs))
    ensures Under(q, ["keepalive", "persistentkeepalive", "pk_keepalive"], "keepalive", Shared(ep, Keepalive))
  {
    assert Found(q, Name(Address)) == Shared(ep, Address);
    assert Found(q, Name(AllowedIPs)) == Shared(ep, AllowedIPs);
    assert Found(q, Name(Keepalive)) == Shared(ep, Keepalive);
    OwnName(q, ["ip", "address"], "address", Shared(ep, Address));
    OwnName(q, ["localaddress", "allowedips"], "allowedips", Shared(ep, AllowedIPs));
    OwnName(q, ["keepalive", "persistentkeepalive", "pk_keepalive"], "keepalive", Shared(ep, Keepalive));
  }

  lemma OwnChoices(q: Params, ep: SingboxEndpoint, n: Style)
    requires |ep.peers| == 1 && CarriesScalars(q, ep) && n.privateKey.Some? && n.leak == ""
    requires Under(q, ["privatekey", "pk"], n.privateKey.value, Some(ep.privateKey))
    requires Under(q, ["peerpublickey", "publickey", "pub", "peerpub"], n.publicKey, Shared(ep, PeerPublicKey))
    requires Under(q, ["presharedkey", "psk"], n.presharedKey, Shared(ep, PresharedKey))
    requires Under(q, ["ip", "address"], n.address, Shared(ep, Address))
    requires Under(q, ["localaddress", "allowedips"], n.allowedIPs, Shared(ep, AllowedIPs))
    requires Under(q, ["keepalive", "persistentkeepalive", "pk_keepalive"], n.keepalive, Shared(ep, Keepalive))
    ensures Carries(q, ep, n)
  {
    assert ep.privateKey + "" == ep.privateKey;
  }

  lemma OwnNames(q: Params, ep: SingboxEndpoint)
    requires |ep.peers| == 1
    requires forall p: Param :: Found(q, Name(p)) == Shared(ep, p)
    requires forall k :: OtherName(k) ==> Found(q, k) == None
    ensures Carries(q, ep, OWN)
  {
    OwnKeyNames(q, ep);
    OwnListNames(q, ep);
    ScalarsFound(q, ep);
    OwnChoices(q, ep, OWN);
  }

  // ---- Each part of the endpoint comes back ----

  lemma FirstName(q: Params, a: string, rest: seq<string>)
    requires PlainKey(a)
    ensures OneOf(q, [a] + rest) == match Found(q, a) case Some(v) => v case None => OneOf(q, rest)
  {
    PlainKeyIsNormal(a);
    assert ([a] + rest)[1..] == rest;
  }

  /** Whichever of its names a parameter has, it is found. */
  lemma {:induction false} OneOfThem(q: Params, names: seq<string>, chosen: string, v: Option<string>)
    requires Under(q, names, chosen, v) && forall k :: k in names ==> PlainKey(k)
    ensures OneOf(q, names) == if chosen in names then OrNothing(v) else ""
  {
    if names != [] {
      var k, rest := names[0], names[1..];
      assert names == [k] + rest;
      FirstName(q, k, rest);
      OneOfThem(q, rest, chosen, v);
    }
  }

  function OrNothing(v: Option<string>): string { match v case Some(s) => s case None => "" }

  lemma {:induction false} Uint16OfThem(q: Params, names: seq<string>, chosen: string, v: Option<string>)
    requires Under(q, names, chosen, v) && chosen in names
    ensures GetUint16(q, names) == match v case Some(s) => Uint16(Atoi(s).value) case None => 0
  {
    var k, rest := names[0], names[1..];
    assert names == [k] + rest && k in names;
    if k != chosen {
      Uint16OfThem(q, rest, chosen, v);
    } else if v.None? {
      NoneOfThem(q, rest);
    }
  }

  lemma {:induction false} NoneOfThem(q: Params, names: seq<string>)
    requires forall k :: k in names ==> Found(q, k) == None
    ensures GetUint16(q, names) == 0
  {
    if names != [] {
      assert names[0] in names;
      NoneOfThem(q, names[1..]);
    }
  }

  lemma NamesArePlain(k: string)
    requires k in ["privatekey", "pk"] || k in ["peerpublickey", "publickey", "pub", "peerpub"]
             || k in ["presharedkey", "psk"]
    ensures PlainKey(k)
  {
  }

  lemma KeysReadBack(q: Params, ep: SingboxEndpoint, n: Style)
    requires |ep.peers| == 1 && Carries(q, ep, n) && Accepted(n)
    ensures OneOf(q, ["privatekey", "pk"]) == if n.privateKey.Some? then ep.privateKey + n.leak else ""
    ensures PublicKeyOf(q) == ep.peers[0].publicKey && PskOf(q) == Psk(ep.peers[0])
  {
    forall k | k in ["privatekey", "pk"] || k in ["peerpublickey", "publickey", "pub", "peerpub"]
               || k in ["presharedkey", "psk"]
      ensures PlainKey(k)
    {
      NamesArePlain(k);
    }
    match n.privateKey {
      case Some(k) => OneOfThem(q, ["privatekey", "pk"], k, Some(ep.privateKey + n.leak));
      case None => OneOfThem(q, ["privatekey", "pk"], "", None);
    }
    OneOfThem(q, ["peerpublickey", "publickey", "pub", "peerpub"], n.publicKey, Shared(ep, PeerPublicKey));
    OneOfThem(q, ["presharedkey", "psk"], n.presharedKey, Shared(ep, PresharedKey));
  }

  lemma ListNamesArePlain(k: string)
    requires k in ["ip", "address"] || k in ["localaddress", "allowedips"]
    ensures PlainKey(k)
  {
  }

  lemma AddressesFound(q: Params, chosen: string, list: seq<string>)
    requires chosen in ["ip", "address"]
    requires Under(q, ["ip", "address"], chosen, When(Join(list, ',') != "", Join(list, ',')))
    ensures OneOf(q, ["ip", "address"]) == Join(list, ',')
  {
    forall k | k in ["ip", "address"]
      ensures PlainKey(k)
    {
      ListNamesArePlain(k);
    }
    OneOfThem(q, ["ip", "address"], chosen, When(Join(list, ',') != "", Join(list, ',')));
  }

  lemma AllowedFound(q: Params, chosen: string, list: seq<string>)
    requires chosen in ["localaddress", "allowedips"]
    requires Under(q, ["localaddress", "allowedips"], chosen, When(list != [], Join(list, ',')))
    ensures OneOf(q, ["localaddress", "allowedips"]) == Join(list, ',')
  {
    forall k | k in ["localaddress", "allowedips"]
      ensures PlainKey(k)
    {
      ListNamesArePlain(k);
    }
    OneOfThem(q, ["localaddress", "allowedips"], chosen, When(list != [], Join(list, ',')));
  }

  lemma AddressesAreFound(q: Params, ep: SingboxEndpoint, n: Style)
    requires |ep.peers| == 1 && Carries(q, ep, n) && Accepted(n)
    ensures OneOf(q, ["ip", "address"]) == Join(ep.address, ',')
    ensures OneOf(q, ["localaddress", "allowedips"]) == Join(ep.peers[0].allowedIPs, ',')
  {
    AddressesFound(q, n.address, ep.address);
    AllowedFound(q, n.allowedIPs, ep.peers[0].allowedIPs);
  }

  lemma KeepaliveFound(q: Params, chosen: string, keepalive: nat)
    requires chosen in ["keepalive", "persistentkeepalive"] && keepalive < 0x1_0000
    requires Under(q, ["keepalive", "persistentkeepalive", "pk_keepalive"], chosen,
                   When(keepalive > 0, Itoa(keepalive)))
    ensures KeepaliveOf(q) == keepalive
  {
    KeepaliveName(chosen);
    Uint16OfThem(q, ["keepalive", "persistentkeepalive", "pk_keepalive"], chosen, When(keepalive > 0, Itoa(keepalive)));
    NumbersReadBack(keepalive);
  }

  lemma KeepaliveReadsBack(q: Params, ep: SingboxEndpoint, n: Style)
    requires |ep.peers| == 1 && Carries(q, ep, n) && Accepted(n) && ep.peers[0].keepalive < 0x1_0000
    ensures KeepaliveOf(q) == ep.peers[0].keepalive
  {
    KeepaliveFound(q, n.keepalive, ep.peers[0].keepalive);
  }

  lemma KeepaliveName(k: string)
    requires k in ["keepalive", "persistentkeepalive"]
    ensures k in ["keepalive", "persistentkeepalive", "pk_keepalive"]
  {
  }

  lemma ScalarsReadBack(q: Params, ep: SingboxEndpoint)
    requires |ep.peers| == 1 && CarriesScalars(q, ep) && ep.mtu < 0x1_0000_0000 && 0 <= ep.workers < INT64_LIMIT
    ensures GetMtu(q) == ep.mtu && GetWorkers(q) == ep.workers
  {
    NumbersReadBack(ep.mtu);
    NumbersReadBack(ep.workers);
  }

  lemma ReservedComesBack(q: Params, ep: SingboxEndpoint)
    requires |ep.peers| == 1 && CarriesScalars(q, ep)
    requires AreBytes(ep.peers[0].reserved) && ReservedCount(|ep.peers[0].reserved|)
    ensures GetReserved(q) == Some(Nats(ep.peers[0].reserved))
  {
    if ep.peers[0].reserved != [] {
      ReservedReadsBack(ep.peers[0].reserved);
    }
  }

  // ---- The round trip ----

  lemma MadePeer<P>(p: SingboxPeer, privateKey: string, parse: string -> Option<P>, defaults: seq<P>)
    requires IsKey(privateKey) && ValidPeer(p, parse)
    ensures var raw := MeantPeer(p, parse, defaults).(reserved := []);
            MakePeer(privateKey, raw, Some(Nats(p.reserved))) == Ok(MeantPeer(p, parse, defaults))
  {
    KeyFacts(privateKey);
    KeyFacts(p.publicKey);
    PskFacts(Psk(p));
    MadeOfKeys(privateKey, MeantPeer(p, parse, defaults).(reserved := []), Nats(p.reserved));
  }

  lemma PskFacts(psk: string)
    requires psk == "" || IsKey(psk)
    ensures Keys.NormalizeWgKey(psk) == Some(psk)
  {
    if psk != "" {
      KeyFacts(psk);
    }
  }

  lemma MadeOfKeys<P>(privateKey: string, raw: Peer<P>, reserved: seq<nat>)
    requires privateKey != "" && raw.publicKey != "" && raw.address != "" && raw.port != 0
    requires Keys.NormalizeWgKey(privateKey).Some?
    requires Keys.NormalizeWgKey(raw.publicKey) == Some(raw.publicKey)
    requires Keys.NormalizeWgKey(raw.presharedKey) == Some(raw.presharedKey)
    ensures MakePeer(privateKey, raw, Some(reserved)) == Ok(raw.(reserved := reserved))
  {
  }

  /** The URL says the endpoint: its query in the style, its userinfo if the style has the private
      key there, its host, port and name. */
  ghost predicate Says(u: UrlSchema, ep: SingboxEndpoint, n: Style)
    requires |ep.peers| == 1
  {
    && Accepted(n) && Carries(u.params, ep, n) && CarriesObfuscation(u.params, ep.obfuscation)
    && (n.privateKey.None? ==> u.username == ep.privateKey + n.leak)
    && u.hostname == ep.peers[0].address && u.port == ep.peers[0].port
    && u.name == OrDefault(ep.tag, ep.peers[0].address)
  }

  lemma BeforeLeak(key: string, leak: string)
    requires '@' !in key && (leak != "" ==> leak[0] == '@')
    ensures BeforeAt(key + leak) == key
  {
    if leak == "" {
      assert key + leak == key && '@' !in key + leak;
    } else {
      assert key + leak == key + ['@'] + leak[1..];
      IndexByteAt(key, '@', leak[1..]);
    }
  }

  lemma PrivateKeyReadsBack(u: UrlSchema, ep: SingboxEndpoint, n: Style)
    requires |ep.peers| == 1 && Says(u, ep, n) && IsKey(ep.privateKey)
    ensures PrivateKeyOf(u) == ep.privateKey && Keys.NormalizeWgKey(ep.privateKey) == Some(ep.privateKey)
  {
    KeysReadBack(u.params, ep, n);
    KeyFacts(ep.privateKey);
    BeforeLeak(ep.privateKey, n.leak);
  }

  lemma RawPeerReadsBack<P>(u: UrlSchema, ep: SingboxEndpoint, n: Style, allowed: seq<P>)
    requires |ep.peers| == 1 && Says(u, ep, n) && ep.peers[0].keepalive < 0x1_0000
    ensures var p := ep.peers[0];
            RawPeer(u, allowed) == Peer(p.address, p.port, p.publicKey, Psk(p), allowed, p.keepalive, [])
  {
    KeysReadBack(u.params, ep, n);
    KeepaliveReadsBack(u.params, ep, n);
  }

  lemma PeerReadsBack<P>(u: UrlSchema, ep: SingboxEndpoint, n: Style, parse: string -> Option<P>, defaults: seq<P>)
    requires Valid(ep, parse) && Says(u, ep, n)
    ensures var peer := MeantPeer(ep.peers[0], parse, defaults); GetPeer(u, peer.allowedIPs) == Ok(peer)
  {
    PrivateKeyReadsBack(u, ep, n);
    RawPeerReadsBack(u, ep, n, MeantPeer(ep.peers[0], parse, defaults).allowedIPs);
    ReservedComesBack(u.params, ep);
    MadePeer(ep.peers[0], ep.privateKey, parse, defaults);
  }

  lemma ClassifiedAs<P>(ep: SingboxEndpoint, parse: string -> Option<P>, defaults: seq<P>)
    requires Valid(ep, parse)
    ensures var tag, addresses := OrDefault(ep.tag, ep.peers[0].address), Addresses(ep.address, parse);
            var peer := MeantPeer(ep.peers[0], parse, defaults);
            Classify(tag, ep.privateKey, addresses, ep.mtu, ep.workers, ep.obfuscation, peer)
            == Ok(MeantAs(ep, !LooksPlain(ep.obfuscation), parse, defaults))
  {
  }

  lemma BuildReadsBack<P>(u: UrlSchema, ep: SingboxEndpoint, n: Style, parse: string -> Option<P>, defaults: seq<P>)
    requires Valid(ep, parse) && Says(u, ep, n)
    ensures Build(u, Addresses(ep.address, parse), MeantPeer(ep.peers[0], parse, defaults))
            == Ok(MeantAs(ep, !LooksPlain(ep.obfuscation), parse, defaults))
  {
    PrivateKeyReadsBack(u, ep, n);
    ObfuscationReadsBack(u.params, ep.obfuscation);
    ScalarsReadBack(u.params, ep);
    ClassifiedAs(ep, parse, defaults);
  }

  lemma AddressesReadBack<P>(u: UrlSchema, ep: SingboxEndpoint, n: Style, parse: string -> Option<P>)
    requires Valid(ep, parse) && Says(u, ep, n)
    ensures ParsePrefixes(OneOf(u.params, ["ip", "address"]), parse) == Some(Addresses(ep.address, parse))
    ensures ParsePrefixes(OneOf(u.params, ["localaddress", "allowedips"]), parse)
            == Some(Addresses(ep.peers[0].allowedIPs, parse))
  {
    AddressesAreFound(u.params, ep, n);
    PrefixesReadBack(ep.address, parse);
    PrefixesReadBack(ep.peers[0].allowedIPs, parse);
  }

  lemma EndpointReadsBack<P>(u: UrlSchema, ep: SingboxEndpoint, n: Style, parse: string -> Option<P>,
          everything: seq<P>)
    requires Valid(ep, parse) && Says(u, ep, n)
    ensures FromUrl(u, parse, everything) == Ok(MeantAs(ep, !LooksPlain(ep.obfuscation), parse, everything))
  {
    AddressesReadBack(u, ep, n, parse);
    PeerReadsBack(u, ep, n, parse, everything);
    BuildReadsBack(u, ep, n, parse, everything);
  }

  /** The body of a link has a '?', so that it is never taken for base64. */
  lemma LinkIsNotBase64(scheme: string, body: string)
    requires ':' !in scheme && '?' in body
    ensures OpenBody(scheme + "://" + body) == scheme + "://" + body
  {
    IndexAt(scheme, "://", body);
    Keys.ForeignByteIsRejected(body, '?');
  }

  lemma PrintedBody(scheme: string, user: Option<string>, host: string, port: nat, query: string, frag: string)
    requires query != ""
    ensures var text := PrintUrl(scheme, user, host, port, query, frag);
            exists body :: text == scheme + "://" + body && '?' in body
  {
    var tail := "?" + query + if frag == "" then "" else "#" + frag;
    var body := Authority(user, host, port) + tail;
    assert '?' in tail;
    assert PrintUrl(scheme, user, host, port, query, frag) == scheme + "://" + body;
  }

  lemma PrintedIsOpen(scheme: string, user: Option<string>, host: string, port: nat, query: string, frag: string)
    requires query != "" && ':' !in scheme
    ensures var text := PrintUrl(scheme, user, host, port, query, frag); OpenBody(text) == text
  {
    PrintedBody(scheme, user, host, port, query, frag);
    var body :| PrintUrl(scheme, user, host, port, query, frag) == scheme + "://" + body && '?' in body;
    LinkIsNotBase64(scheme, body);
  }

  lemma HostIsBytes(h: string)
    requires ValidHost(h)
    ensures IsBytes(h) && h != ""
  {
  }

  lemma ValidIsPrintable<P>(ep: SingboxEndpoint, parse: string -> Option<P>)
    requires Valid(ep, parse)
    ensures Printable(ep) && IsBytes(OrDefault(ep.tag, ep.peers[0].address))
  {
    HostIsBytes(ep.peers[0].address);
    KeyIsThere(ep.privateKey);
    KeyIsThere(ep.peers[0].publicKey);
  }

  lemma KeyIsThere(k: string)
    requires IsKey(k)
    ensures k != ""
  {
  }

  /** The userinfo of a link: the private key, if the style has it there. */
  function UserOf(ep: SingboxEndpoint, n: Style): Option<string> {
    if n.privateKey.Some? then None else Some(Escape(ep.privateKey + n.leak, UserPassword))
  }

  lemma {:induction false} EscapedKeyChars(s: string)
    ensures AllUserChars(Escape(s, UserPassword)) && ':' !in Escape(s, UserPassword)
  {
    if s != "" {
      EscapedKeyChars(s[1..]);
      assert AllUserChars(EscapeByte(s[0], UserPassword)) && ':' !in EscapeByte(s[0], UserPassword);
    }
  }

  lemma UserParses(ep: SingboxEndpoint, n: Style)
    requires IsBytes(ep.privateKey) && IsBytes(n.leak)
    ensures UserOf(ep, n).Some? ==> AllUserChars(UserOf(ep, n).value)
    ensures ParseUserinfo(UserOf(ep, n)) == Some(Credentials(if n.privateKey.Some? then "" else ep.privateKey + n.leak,
                                                             ""))
  {
    var key := ep.privateKey + n.leak;
    EscapedKeyChars(key);
    PathRoundTrip(key, UserPassword);
    CutAbsent(Escape(key, UserPassword), ':');
    assert Unescape("", false) == Some("");
  }

  /** A link in any style: `r` is the query as it is spelt, `q` what its keys mean. */
  function LinkIn(scheme: string, r: Params, ep: SingboxEndpoint, n: Style, order: seq<string>): string
    requires |ep.peers| == 1 && Lists(order, r)
  {
    var p := ep.peers[0];
    var name := OrDefault(ep.tag, p.address);
    PrintUrl(scheme, UserOf(ep, n), p.address, p.port, EncodeQuery(PairsIn(order, r)), Escape(name, Fragment))
  }

  /** The link cut up by ParseUrl. */
  function LinkUrl(scheme: string, q: Params, ep: SingboxEndpoint, n: Style): UrlSchema
    requires |ep.peers| == 1
  {
    var p := ep.peers[0];
    var user := if n.privateKey.Some? then "" else ep.privateKey + n.leak;
    UrlSchema(scheme, user, "", p.address, p.port, OrDefault(ep.tag, p.address), q)
  }

  lemma LinkParses<P>(scheme: string, r: Params, q: Params, ep: SingboxEndpoint, n: Style, order: seq<string>,
          keys: seq<string>, parse: string -> Option<P>, everything: seq<P>)
    requires LowerLetters(scheme) && scheme != "ss" && Valid(ep, parse) && IsBytes(n.leak)
    requires Spelling(r, q) && Lists(order, r) && Lists(keys, r) && q != map[]
    ensures LinkOf(LinkIn(scheme, r, ep, n, order), keys, parse, everything)
            == FromUrl(LinkUrl(scheme, q, ep, n), parse, everything)
  {
    var p := ep.peers[0];
    var user, name := UserOf(ep, n), OrDefault(ep.tag, p.address);
    var given := Credentials(if n.privateKey.Some? then "" else ep.privateKey + n.leak, "");
    KeyFacts(ep.privateKey);
    ValidIsPrintable(ep, parse);
    UserParses(ep, n);
    assert ':' !in scheme;
    SpelledQueryIsThere(r, q, order);
    PrintedIsOpen(scheme, user, p.address, p.port, EncodeQuery(PairsIn(order, r)), Escape(name, Fragment));
    ParseSpelledLink(scheme, user, given, p.address, p.port, r, q, order, keys, name, Fragment, 0);
  }

  lemma SpelledQueryIsThere(r: Params, q: Params, order: seq<string>)
    requires Spelling(r, q) && Lists(order, r) && q != map[]
    ensures EncodeQuery(PairsIn(order, r)) != ""
  {
    var n :| n in q;
    var k :| k in r && Norm(k) == n;
    assert k in order;
    ShareUrl.PairsAreBytes(order, r);
    EncodedQueryChars(PairsIn(order, r));
  }

  lemma NamesAPublicKey(n: Style)
    requires Accepted(n)
    ensures n.publicKey in ["peerpublickey", "publickey", "pub", "peerpub"]
  {
  }

  lemma CarriesAKey(q: Params, ep: SingboxEndpoint, n: Style)
    requires |ep.peers| == 1 && Accepted(n) && Carries(q, ep, n)
    ensures q != map[]
  {
    NamesAPublicKey(n);
    CarriesSome(q, ["peerpublickey", "publickey", "pub", "peerpub"], n.publicKey, Shared(ep, PeerPublicKey));
  }

  lemma CarriesSome(q: Params, names: seq<string>, chosen: string, v: Option<string>)
    requires Under(q, names, chosen, v) && chosen in names && v.Some?
    ensures q != map[]
  {
    assert chosen in q;
  }

  /** A link under any of the names that the parser knows, each in any case and spelling, with the
      private key as a parameter or as the userinfo: the endpoint comes back whole, as the kind
      that the parser's own test gives it, and without allowed addresses it routes everything. */
  lemma AnyStyleIsReadBack<P>(scheme: string, r: Params, q: Params, ep: SingboxEndpoint, n: Style, order: seq<string>,
          keys: seq<string>, parse: string -> Option<P>, everything: seq<P>)
    requires LowerLetters(scheme) && scheme != "ss" && Valid(ep, parse)
    requires Accepted(n) && IsBytes(n.leak) && Carries(q, ep, n) && CarriesObfuscation(q, ep.obfuscation)
    requires Spelling(r, q) && Lists(order, r) && Lists(keys, r)
    ensures LinkOf(LinkIn(scheme, r, ep, n, order), keys, parse, everything)
            == Ok(MeantAs(ep, !LooksPlain(ep.obfuscation), parse, everything))
  {
    CarriesAKey(q, ep, n);
    LinkParses(scheme, r, q, ep, n, order, keys, parse, everything);
    EndpointReadsBack(LinkUrl(scheme, q, ep, n), ep, n, parse, everything);
  }

  lemma OwnLink(ep: SingboxEndpoint, order: seq<string>)
    requires |ep.peers| == 1 && Lists(order, QueryOf(ep))
    ensures LinkIn(SchemeOf(ep), QueryOf(ep), ep, OWN, order) == LinkText(QueryOf(ep), ep, order)
  {
  }

  lemma OwnStyleIsReadBack<P>(ep: SingboxEndpoint, order: seq<string>, keys: seq<string>,
          parse: string -> Option<P>, everything: seq<P>)
    requires Valid(ep, parse) && Lists(order, QueryOf(ep)) && Lists(keys, QueryOf(ep))
    ensures LinkOf(LinkIn(SchemeOf(ep), QueryOf(ep), ep, OWN, order), keys, parse, everything)
            == Ok(MeantAs(ep, !LooksPlain(ep.obfuscation), parse, everything))
  {
    PrintedQueryIsInStyle(ep, parse);
    SchemeIsPlain(ep);
    InStyleIsReadBack(SchemeOf(ep), QueryOf(ep), ep, OWN, order, keys, parse, everything);
  }

  /** Printed in whatever order and read back visiting the keys in whatever order, a valid
      endpoint comes back whole, as the kind that the parser's own test gives it. */
  lemma PrintedLinkIsReadBack<P>(ep: SingboxEndpoint, order: seq<string>, keys: seq<string>,
          parse: string -> Option<P>, everything: seq<P>)
    requires Valid(ep, parse) && Lists(order, QueryOf(ep)) && Lists(keys, QueryOf(ep))
    ensures UriOf(ep, order).Some?
    ensures LinkOf(UriOf(ep, order).value, keys, parse, everything)
            == Ok(MeantAs(ep, !LooksPlain(ep.obfuscation), parse, everything))
  {
    ValidIsPrintable(ep, parse);
    OwnLink(ep, order);
    OwnStyleIsReadBack(ep, order, keys, parse, everything);
  }

  ghost predicate InStyle(q: Params, ep: SingboxEndpoint, n: Style)
    requires |ep.peers| == 1
  {
    Accepted(n) && IsBytes(n.leak) && Spelling(q, q) && Carries(q, ep, n) && CarriesObfuscation(q, ep.obfuscation)
  }

  lemma InStyleIsReadBack<P>(scheme: string, q: Params, ep: SingboxEndpoint, n: Style, order: seq<string>,
          keys: seq<string>, parse: string -> Option<P>, everything: seq<P>)
    requires LowerLetters(scheme) && scheme != "ss" && Valid(ep, parse)
    requires InStyle(q, ep, n) && Lists(order, q) && Lists(keys, q)
    ensures LinkOf(LinkIn(scheme, q, ep, n, order), keys, parse, everything)
            == Ok(MeantAs(ep, !LooksPlain(ep.obfuscation), parse, everything))
  {
    AnyStyleIsReadBack(scheme, q, q, ep, n, order, keys, parse, everything);
  }

  lemma PrintedQueryIsInStyle<P>(ep: SingboxEndpoint, parse: string -> Option<P>)
    requires Valid(ep, parse)
    ensures InStyle(QueryOf(ep), ep, OWN)
  {
    QueryIsCanonical(ep, parse);
    CanonicalSpellsItself(QueryOf(ep));
    QueryCarries(ep);
    QueryCarriesObfuscation(ep);
    OwnIsAccepted();
  }

  lemma OwnIsAccepted()
    ensures Accepted(OWN)
  {
  }

  lemma SchemeIsPlain(ep: SingboxEndpoint)
    ensures LowerLetters(SchemeOf(ep)) && SchemeOf(ep) != "ss"
  {
  }

  // ---- Every style has a link ----

  /** A parameter: the names it may have, the one it has, and its value. */
  datatype Choice = Choice(names: seq<string>, chosen: string, value: Option<string>)

  function Put(q: Params, c: Choice): Params { match c.value case Some(v) => q[c.chosen := v] case None => q }

  function PutAll(q: Params, cs: seq<Choice>): Params
    decreases |cs|
  {
    if cs == [] then q else Put(PutAll(q, cs[..|cs| - 1]), cs[|cs| - 1])
  }

  ghost predicate Separate(cs: seq<Choice>) {
    && (forall i :: 0 <= i < |cs| ==> cs[i].value.Some? ==> cs[i].chosen in cs[i].names)
    && (forall i, j, k :: 0 <= i < j < |cs| && k in cs[i].names ==> k !in cs[j].names)
  }

  predicate NoneIn(q: Params, names: seq<string>) { forall k :: k in names ==> k !in q }

  lemma PutKeeps(q: Params, c: Choice, names: seq<string>, chosen: string, v: Option<string>)
    requires c.value.Some? ==> c.chosen !in names
    ensures Under(q, names, chosen, v) ==> Under(Put(q, c), names, chosen, v)
    ensures NoneIn(q, names) ==> NoneIn(Put(q, c), names)
  {
  }

  lemma {:induction false} ChoicesAreUnder(q: Params, cs: seq<Choice>, others: seq<string>)
    requires Separate(cs) && NoneIn(q, others)
    requires forall i :: 0 <= i < |cs| ==> NoneIn(q, cs[i].names)
    requires forall i, k :: 0 <= i < |cs| && k in cs[i].names ==> k !in others
    ensures NoneIn(PutAll(q, cs), others)
    ensures forall i :: 0 <= i < |cs| ==> Under(PutAll(q, cs), cs[i].names, cs[i].chosen, cs[i].value)
    ensures forall k :: (forall i :: 0 <= i < |cs| ==> k !in cs[i].names) ==> Found(PutAll(q, cs), k) == Found(q, k)
    decreases |cs|
  {
    if cs != [] {
      var n := |cs| - 1;
      var front, last := cs[..n], cs[n];
      ChoicesAreUnder(q, front, last.names);
      ChoicesAreUnder(q, front, others);
      PutKeeps(PutAll(q, front), last, others, "", None);
      forall i | 0 <= i < n
        ensures Under(PutAll(q, cs), cs[i].names, cs[i].chosen, cs[i].value)
      {
        assert front[i] == cs[i];
        PutKeeps(PutAll(q, front), last, cs[i].names, cs[i].chosen, cs[i].value);
      }
      forall k | forall i :: 0 <= i < |cs| ==> k !in cs[i].names
        ensures Found(PutAll(q, cs), k) == Found(q, k)
      {
        assert forall i :: 0 <= i < n ==> front[i] == cs[i];
        assert k !in cs[n].names;
      }
    }
  }

  /** The parameters that a style names. */
  function ChoicesOf(ep: SingboxEndpoint, n: Style): seq<Choice>
    requires |ep.peers| == 1
  {
    [if n.privateKey.Some? then Choice(["privatekey", "pk"], n.privateKey.value, Some(ep.privateKey + n.leak))
     else Choice(["privatekey", "pk"], "", None),
     Choice(["peerpublickey", "publickey", "pub", "peerpub"], n.publicKey, Shared(ep, PeerPublicKey)),
     Choice(["presharedkey", "psk"], n.presharedKey, Shared(ep, PresharedKey)),
     Choice(["ip", "address"], n.address, Shared(ep, Address)),
     Choice(["localaddress", "allowedips"], n.allowedIPs, Shared(ep, AllowedIPs)),
     Choice(["keepalive", "persistentkeepalive", "pk_keepalive"], n.keepalive, Shared(ep, Keepalive))]
  }

  const UNNAMED: set<string> := {"reserved", "mtu", "workers"} + NUMBER_KEYS + TEXT_KEYS

  /** An endpoint's query in a style. */
  function QueryIn(ep: SingboxEndpoint, n: Style): Params
    requires |ep.peers| == 1
  {
    PutAll(QueryOver(ep, UNNAMED), ChoicesOf(ep, n))
  }

  /** Which of the choices a name belongs to; 6 for none. */
  function ChoiceOfName(k: string): nat {
    if k == "privatekey" || k == "pk" then 0
    else if k == "peerpublickey" || k == "publickey" || k == "pub" || k == "peerpub" then 1
    else if k == "presharedkey" || k == "psk" then 2
    else if k == "ip" || k == "address" then 3
    else if k == "localaddress" || k == "allowedips" then 4
    else if k == "keepalive" || k == "persistentkeepalive" || k == "pk_keepalive" then 5
    else 6
  }

  lemma NamesOfChoice(ep: SingboxEndpoint, n: Style, i: nat, k: string)
    requires |ep.peers| == 1 && i < 6 && k in ChoicesOf(ep, n)[i].names
    ensures ChoiceOfName(k) == i
  {
  }

  lemma StyleNameIsNamed(k: string)
    requires ChoiceOfName(k) < 6
    ensures k != "reserved" && k != "mtu" && k != "workers" && k !in NUMBER_KEYS && k !in TEXT_KEYS
  {
  }

  lemma ChosenIsAName(ep: SingboxEndpoint, n: Style, i: nat)
    requires |ep.peers| == 1 && Accepted(n) && i < 6
    ensures var c := ChoicesOf(ep, n)[i]; c.value.Some? ==> c.chosen in c.names
  {
    if i == 5 {
      KeepaliveName(n.keepalive);
    }
  }

  lemma ChoicesAreSeparate(ep: SingboxEndpoint, n: Style)
    requires |ep.peers| == 1 && Accepted(n)
    ensures Separate(ChoicesOf(ep, n))
  {
    var cs := ChoicesOf(ep, n);
    forall i | 0 <= i < |cs|
      ensures cs[i].value.Some? ==> cs[i].chosen in cs[i].names
    {
      ChosenIsAName(ep, n, i);
    }
    forall i, j, k | 0 <= i < j < |cs| && k in cs[i].names
      ensures k !in cs[j].names
    {
      NamesOfChoice(ep, n, i, k);
      if k in cs[j].names {
        NamesOfChoice(ep, n, j, k);
      }
    }
  }

  ghost predicate AreUnder(q: Params, cs: seq<Choice>) {
    forall i :: 0 <= i < |cs| ==> Under(q, cs[i].names, cs[i].chosen, cs[i].value)
  }

  /** The choices are none of the other parameters. */
  lemma StartsWithoutChoices(ep: SingboxEndpoint, n: Style)
    requires |ep.peers| == 1
    ensures forall i :: 0 <= i < |ChoicesOf(ep, n)| ==> NoneIn(QueryOver(ep, UNNAMED), ChoicesOf(ep, n)[i].names)
  {
    var cs := ChoicesOf(ep, n);
    forall i, x | 0 <= i < |cs| && x in cs[i].names
      ensures x !in QueryOver(ep, UNNAMED)
    {
      NamesOfChoice(ep, n, i, x);
      StyleNameIsNamed(x);
    }
  }

  lemma NamedLookup(ep: SingboxEndpoint, n: Style)
    requires |ep.peers| == 1 && Separate(ChoicesOf(ep, n))
    ensures AreUnder(QueryIn(ep, n), ChoicesOf(ep, n))
  {
    StartsWithoutChoices(ep, n);
    ChoicesAreUnder(QueryOver(ep, UNNAMED), ChoicesOf(ep, n), []);
  }

  lemma NotAChoice(ep: SingboxEndpoint, n: Style, k: string)
    requires |ep.peers| == 1 && ChoiceOfName(k) == 6
    ensures forall i :: 0 <= i < |ChoicesOf(ep, n)| ==> k !in ChoicesOf(ep, n)[i].names
  {
    var cs := ChoicesOf(ep, n);
    forall i | 0 <= i < |cs|
      ensures k !in cs[i].names
    {
      if k in cs[i].names {
        NamesOfChoice(ep, n, i, k);
      }
    }
  }

  lemma UnnamedLookup(ep: SingboxEndpoint, n: Style, k: string)
    requires |ep.peers| == 1 && Separate(ChoicesOf(ep, n)) && ChoiceOfName(k) == 6 && k in UNNAMED
    ensures Found(QueryIn(ep, n), k) == Carried(ep, k)
  {
    var q := QueryOver(ep, UNNAMED);
    StartsWithoutChoices(ep, n);
    NotAChoice(ep, n, k);
    ChoicesAreUnder(q, ChoicesOf(ep, n), []);
    assert Found(q, k) == Carried(ep, k);
  }

  lemma ObfuscationIsUnnamed(k: string)
    requires k in NUMBER_KEYS || k in TEXT_KEYS
    ensures ChoiceOfName(k) == 6 && k in UNNAMED
  {
    if ChoiceOfName(k) < 6 {
      StyleNameIsNamed(k);
    }
  }

  lemma QueryInCarriesObfuscation(ep: SingboxEndpoint, n: Style)
    requires |ep.peers| == 1 && Separate(ChoicesOf(ep, n)) && Total(ep.obfuscation)
    ensures CarriesObfuscation(QueryIn(ep, n), ep.obfuscation)
  {
    forall k | k in NUMBER_KEYS || k in TEXT_KEYS
      ensures Found(QueryIn(ep, n), k) == Obfuscated(ep.obfuscation, k)
    {
      ObfuscationIsUnnamed(k);
      UnnamedLookup(ep, n, k);
      CarriedObfuscated(ep, k);
    }
  }

  predicate IsScalar(p: Param) { p == Reserved || p == Mtu || p == Workers }

  lemma ScalarIsUnnamed(p: Param)
    requires IsScalar(p)
    ensures Name(p) in UNNAMED && ChoiceOfName(Name(p)) == 6
  {
    ScalarIsNoChoice(p);
  }

  lemma ScalarIsNoChoice(p: Param)
    requires IsScalar(p)
    ensures ChoiceOfName(Name(p)) == 6
  {
  }

  lemma UnnamedParams(ep: SingboxEndpoint, n: Style)
    requires |ep.peers| == 1 && Separate(ChoicesOf(ep, n))
    ensures forall p | IsScalar(p) :: Found(QueryIn(ep, n), Name(p)) == Shared(ep, p)
  {
    forall p | IsScalar(p)
      ensures Found(QueryIn(ep, n), Name(p)) == Shared(ep, p)
    {
      ScalarIsUnnamed(p);
      UnnamedLookup(ep, n, Name(p));
      CarriedShared(ep, p);
    }
  }

  lemma ScalarsFound(q: Params, ep: SingboxEndpoint)
    requires |ep.peers| == 1 && forall p | IsScalar(p) :: Found(q, Name(p)) == Shared(ep, p)
    ensures CarriesScalars(q, ep)
  {
    assert Found(q, Name(Reserved)) == Shared(ep, Reserved);
    assert Found(q, Name(Mtu)) == Shared(ep, Mtu);
    assert Found(q, Name(Workers)) == Shared(ep, Workers);
  }

  /** Every endpoint has a query in every style. */
  lemma QueryInCarries(ep: SingboxEndpoint, n: Style)
    requires |ep.peers| == 1 && Accepted(n) && Total(ep.obfuscation)
    ensures Carries(QueryIn(ep, n), ep, n) && CarriesObfuscation(QueryIn(ep, n), ep.obfuscation)
  {
    ChoicesAreSeparate(ep, n);
    UnnamedParams(ep, n);
    ScalarsFound(QueryIn(ep, n), ep);
    NamedLookup(ep, n);
    QueryInCarriesObfuscation(ep, n);
    ChoicesCarry(QueryIn(ep, n), ep, n);
  }

  lemma ChoicesCarry(q: Params, ep: SingboxEndpoint, n: Style)
    requires |ep.peers| == 1
    requires AreUnder(q, ChoicesOf(ep, n)) && CarriesScalars(q, ep)
    ensures Carries(q, ep, n)
  {
    var cs := ChoicesOf(ep, n);
    assert Under(q, cs[0].names, cs[0].chosen, cs[0].value);
    assert Under(q, cs[1].names, cs[1].chosen, cs[1].value);
    assert Under(q, cs[2].names, cs[2].chosen, cs[2].value);
    assert Under(q, cs[3].names, cs[3].chosen, cs[3].value);
    assert Under(q, cs[4].names, cs[4].chosen, cs[4].value);
    assert Under(q, cs[5].names, cs[5].chosen, cs[5].value);
  }

  lemma {:induction false} PutAllIsCanonical(q: Params, cs: seq<Choice>)
    requires Canonical(q) && forall i :: 0 <= i < |cs| ==> ChoiceFits(cs[i], CanonicalPair)
    ensures Canonical(PutAll(q, cs))
    decreases |cs|
  {
    if cs != [] {
      PutAllIsCanonical(q, cs[..|cs| - 1]);
    }
  }

  lemma KeyChoiceIsCanonical(name: string, key: string)
    requires KeyName(name) && KeyValue(key)
    ensures CanonicalPair(name, key)
  {
    KeyNameIsPlain(name);
    PlainKeyIsNormal(name);
  }

  lemma KeyNameIsPlain(k: string)
    requires KeyName(k)
    ensures PlainKey(k)
  {
  }

  predicate OtherChoice(k: string) {
    || k == "ip" || k == "address" || k == "localaddress" || k == "allowedips"
    || k == "keepalive" || k == "persistentkeepalive"
  }

  lemma OtherChoiceIsPlain(k: string)
    requires OtherChoice(k)
    ensures PlainKey(k)
  {
  }

  lemma OtherChoiceIsNotRaw(k: string)
    requires OtherChoice(k)
    ensures k !in RAW_KEYS
  {
  }

  lemma OtherChoiceIsCanonical(name: string, v: string)
    requires OtherChoice(name) && IsBytes(v)
    ensures CanonicalPair(name, v)
  {
    OtherChoiceIsPlain(name);
    OtherChoiceIsNotRaw(name);
    PlainKeyIsNormal(name);
  }

  predicate KeyName(k: string) {
    || k == "privatekey" || k == "pk" || k == "presharedkey" || k == "psk"
    || k == "peerpublickey" || k == "publickey" || k == "pub" || k == "peerpub"
  }

  predicate KeyValue(v: string) { IsBytes(v) && ' ' !in v }

  ghost predicate FitsNames(fits: (string, string) -> bool) {
    && (forall k, v :: KeyName(k) && KeyValue(v) ==> fits(k, v))
    && (forall k, v :: OtherChoice(k) && IsBytes(v) ==> fits(k, v))
  }

  predicate ChoiceFits(c: Choice, fits: (string, string) -> bool) { c.value.Some? ==> fits(c.chosen, c.value.value) }

  lemma KeyNamesOf(n: Style)
    requires Accepted(n)
    ensures (n.privateKey.Some? ==> KeyName(n.privateKey.value)) && KeyName(n.publicKey) && KeyName(n.presharedKey)
  {
  }

  lemma OtherNamesOf(n: Style)
    requires Accepted(n)
    ensures OtherChoice(n.address) && OtherChoice(n.allowedIPs) && OtherChoice(n.keepalive)
  {
  }

  lemma KeyIsAValue(key: string, leak: string)
    requires IsKey(key) && KeyValue(leak)
    ensures KeyValue(key) && KeyValue(key + leak)
  {
    KeyFacts(key);
  }

  lemma KeyValuesOf<P>(ep: SingboxEndpoint, n: Style, parse: string -> Option<P>)
    requires Valid(ep, parse) && KeyValue(n.leak)
    ensures KeyValue(ep.privateKey + n.leak) && KeyValue(ep.peers[0].publicKey)
    ensures Psk(ep.peers[0]) != "" ==> KeyValue(Psk(ep.peers[0]))
  {
    KeyIsAValue(ep.privateKey, n.leak);
    KeyIsAValue(ep.peers[0].publicKey, n.leak);
    if Psk(ep.peers[0]) != "" {
      KeyIsAValue(Psk(ep.peers[0]), n.leak);
    }
  }

  lemma ChoicesFit(ep: SingboxEndpoint, n: Style, fits: (string, string) -> bool)
    requires |ep.peers| == 1 && FitsNames(fits)
    requires (n.privateKey.Some? ==> KeyName(n.privateKey.value)) && KeyName(n.publicKey) && KeyName(n.presharedKey)
    requires OtherChoice(n.address) && OtherChoice(n.allowedIPs) && OtherChoice(n.keepalive)
    requires KeyValue(ep.privateKey + n.leak) && KeyValue(ep.peers[0].publicKey)
    requires Psk(ep.peers[0]) != "" ==> KeyValue(Psk(ep.peers[0]))
    requires forall p: Param :: Shared(ep, p).Some? ==> IsBytes(Shared(ep, p).value)
    ensures forall i :: 0 <= i < 6 ==> ChoiceFits(ChoicesOf(ep, n)[i], fits)
  {
  }

  lemma CanonicalFitsNames(fits: (string, string) -> bool)
    requires forall k, v :: fits(k, v) <==> CanonicalPair(k, v)
    ensures FitsNames(fits)
  {
    forall k, v | KeyName(k) && KeyValue(v)
      ensures fits(k, v)
    {
      KeyChoiceIsCanonical(k, v);
    }
    forall k, v | OtherChoice(k) && IsBytes(v)
      ensures fits(k, v)
    {
      OtherChoiceIsCanonical(k, v);
    }
  }

  lemma StyleFits<P>(ep: SingboxEndpoint, n: Style, parse: string -> Option<P>, fits: (string, string) -> bool)
    requires Valid(ep, parse) && Accepted(n) && KeyValue(n.leak) && FitsNames(fits)
    ensures forall i :: 0 <= i < 6 ==> ChoiceFits(ChoicesOf(ep, n)[i], fits)
  {
    KeyNamesOf(n);
    OtherNamesOf(n);
    KeyValuesOf(ep, n, parse);
    forall p: Param | Shared(ep, p).Some?
      ensures IsBytes(Shared(ep, p).value)
    {
      SharedPrints(ep, p, parse);
    }
    ChoicesFit(ep, n, fits);
  }

  lemma UnnamedIsCanonical<P>(ep: SingboxEndpoint, parse: string -> Option<P>)
    requires Valid(ep, parse)
    ensures Canonical(QueryOver(ep, UNNAMED))
  {
    QueryIsCanonical(ep, parse);
    forall k | k in QueryOver(ep, UNNAMED)
      ensures CanonicalPair(k, QueryOver(ep, UNNAMED)[k])
    {
      UnnamedIsALinkKey(k);
      assert k in QueryOf(ep);
    }
  }

  lemma UnnamedIsALinkKey(k: string)
    requires k in UNNAMED
    ensures k in LINK_KEYS
  {
    assert Name(Reserved) == "reserved" && Name(Mtu) == "mtu" && Name(Workers) == "workers";
  }

  lemma QueryInIsCanonical<P>(ep: SingboxEndpoint, n: Style, parse: string -> Option<P>)
    requires Valid(ep, parse) && Accepted(n) && IsBytes(n.leak) && ' ' !in n.leak
    ensures Canonical(QueryIn(ep, n))
  {
    var cs := ChoicesOf(ep, n);
    CanonicalFitsNames(CanonicalPair);
    StyleFits(ep, n, parse, CanonicalPair);
    assert forall i :: 0 <= i < |cs| ==> ChoiceFits(cs[i], CanonicalPair);
    UnnamedIsCanonical(ep, parse);
    PutAllIsCanonical(QueryOver(ep, UNNAMED), cs);
  }

  /** So every valid endpoint has a link in every style, and the link is read back as it. */
  lemma EveryStyleIsReadBack<P>(scheme: string, ep: SingboxEndpoint, n: Style, order: seq<string>, keys: seq<string>,
          parse: string -> Option<P>, everything: seq<P>)
    requires LowerLetters(scheme) && scheme != "ss" && Valid(ep, parse)
    requires Accepted(n) && IsBytes(n.leak) && ' ' !in n.leak
    requires Lists(order, QueryIn(ep, n)) && Lists(keys, QueryIn(ep, n))
    ensures LinkOf(LinkIn(scheme, QueryIn(ep, n), ep, n, order), keys, parse, everything)
            == Ok(MeantAs(ep, !LooksPlain(ep.obfuscation), parse, everything))
  {
    QueryInCarries(ep, n);
    QueryInIsCanonical(ep, n, parse);
    CanonicalSpellsItself(QueryIn(ep, n));
    AnyStyleIsReadBack(scheme, QueryIn(ep, n), QueryIn(ep, n), ep, n, order, keys, parse, everything);
  }

  // ---- A name that is never found ----

  lemma NoUnderscore(s: string)
    ensures '_' !in Norm(s)
  {
  }

  lemma {:induction false} ParamsHaveNoUnderscore(keys: seq<string>, ps: seq<Pair>, k: string)
    requires '_' in k
    ensures k !in ParamsIn(keys, ps)
  {
    if keys != [] {
      ParamsHaveNoUnderscore(keys[..|keys| - 1], ps, k);
      NoUnderscore(keys[|keys| - 1]);
    }
  }

  lemma {:induction false} OverrideAddsRawKeys(params: Params, pieces: seq<string>, k: string)
    requires k !in params && k !in RAW_KEYS
    ensures k !in Override(params, pieces)
  {
    if pieces != [] {
      OverrideAddsRawKeys(params, pieces[..|pieces| - 1], k);
    }
  }

  /** The parser asks for "pk_keepalive", but every key it could find has its '_' replaced. */
  lemma PkKeepaliveIsNeverFound(text: string, defaultPort: nat, keys: seq<string>)
    ensures var u := UrlOf(text, defaultPort, keys); u.Some? ==> "pk_keepalive" !in u.value.params
  {
    if UrlOf(text, defaultPort, keys).Some? {
      var q := ParseUrlText(text).value.rawQuery;
      ParamsHaveNoUnderscore(keys, ParseQuery(q), "pk_keepalive");
      NotRaw();
      OverrideAddsRawKeys(ParamsIn(keys, ParseQuery(q)), Split(q, '&'), "pk_keepalive");
    }
  }

  lemma NotRaw()
    ensures "pk_keepalive" !in RAW_KEYS && '_' in "pk_keepalive"
  {
    assert "pk_keepalive"[2] == '_';
  }

  lemma PkKeepaliveMeans()
    ensures Norm("pk_keepalive") == "pk keepalive" && "pk keepalive" !in RAW_KEYS && ' ' in "pk keepalive"
  {
    TrimSpaceOfTrimmed("pk_keepalive");
    assert "pk keepalive"[2] == ' ';
  }

  lemma OneMoreSpelling(r: Params, q: Params, k: string, v: string)
    requires Spelling(r, q) && k !in r && Norm(k) !in q && SpelledPair(k, v)
    ensures Spelling(r[k := v], q[Norm(k) := v])
  {
    var r', q' := r[k := v], q[Norm(k) := v];
    forall n | n in q'
      ensures exists l :: l in r' && Norm(l) == n
    {
      if n == Norm(k) {
        assert k in r';
      } else {
        var l :| l in r && Norm(l) == n;
        assert l in r';
      }
    }
  }

  lemma PkKeepaliveIsSpelt(r: Params, q: Params, v: string)
    requires Spelling(r, q) && "pk_keepalive" !in r && "pk keepalive" !in q && IsBytes(v)
    ensures Spelling(r["pk_keepalive" := v], q["pk keepalive" := v]) && ' ' in "pk keepalive"
  {
    PkKeepaliveMeans();
    OneMoreSpelling(r, q, "pk_keepalive", v);
  }

  lemma NamesHaveNoBlank(k: string)
    requires ChoiceOfName(k) < 6
    ensures ' ' !in k
  {
  }

  lemma ObfuscationHasNoBlank(k: string)
    requires k in NUMBER_KEYS || k in TEXT_KEYS
    ensures ' ' !in k
  {
    ObfuscationKeys(k);
  }

  lemma ScalarsHaveNoBlank(k: string)
    requires k == "reserved" || k == "mtu" || k == "workers"
    ensures ' ' !in k
  {
  }

  lemma ExtraIsUnder(q: Params, c: Choice, k: string, w: string)
    requires Under(q, c.names, c.chosen, c.value) && k !in c.names
    ensures Under(q[k := w], c.names, c.chosen, c.value)
  {
  }

  lemma ExtraIsNoScalar(q: Params, ep: SingboxEndpoint, k: string, w: string)
    requires |ep.peers| == 1 && CarriesScalars(q, ep) && ' ' in k
    ensures CarriesScalars(q[k := w], ep)
  {
    if k == "reserved" || k == "mtu" || k == "workers" {
      ScalarsHaveNoBlank(k);
    }
  }

  lemma CarriesChoices(q: Params, ep: SingboxEndpoint, n: Style)
    requires |ep.peers| == 1 && Carries(q, ep, n)
    ensures AreUnder(q, ChoicesOf(ep, n)) && CarriesScalars(q, ep)
  {
  }

  lemma ExtraNameIsCarried(q: Params, ep: SingboxEndpoint, n: Style, k: string, w: string)
    requires |ep.peers| == 1 && Carries(q, ep, n) && ' ' in k
    ensures Carries(q[k := w], ep, n)
  {
    CarriesChoices(q, ep, n);
    ExtraIsNoScalar(q, ep, k, w);
    ExtraIsNoChoice(q, ep, n, k, w);
    ChoicesCarry(q[k := w], ep, n);
  }

  lemma ExtraIsNoChoice(q: Params, ep: SingboxEndpoint, n: Style, k: string, w: string)
    requires |ep.peers| == 1 && AreUnder(q, ChoicesOf(ep, n)) && ' ' in k
    ensures AreUnder(q[k := w], ChoicesOf(ep, n))
  {
    var cs := ChoicesOf(ep, n);
    forall i | 0 <= i < |cs|
      ensures Under(q[k := w], cs[i].names, cs[i].chosen, cs[i].value)
    {
      if k in cs[i].names {
        NamesOfChoice(ep, n, i, k);
        NamesHaveNoBlank(k);
      }
      ExtraIsUnder(q, cs[i], k, w);
    }
  }

  lemma ExtraKeyIsNoParameter(q: Params, o: Obfuscation, k: string, w: string)
    requires CarriesObfuscation(q, o) && ' ' in k
    ensures CarriesObfuscation(q[k := w], o)
  {
    forall x | x in NUMBER_KEYS || x in TEXT_KEYS
      ensures Found(q[k := w], x) == Obfuscated(o, x)
    {
      ObfuscationHasNoBlank(x);
    }
  }

  /** A link that gives the keepalive under that name is read as if it gave none. */
  lemma PkKeepaliveIsLost<P>(scheme: string, r: Params, q: Params, ep: SingboxEndpoint, n: Style, v: string,
          order: seq<string>, keys: seq<string>, parse: string -> Option<P>, everything: seq<P>)
    requires LowerLetters(scheme) && scheme != "ss" && Valid(ep, parse) && ep.peers[0].keepalive == 0
    requires Accepted(n) && IsBytes(n.leak) && Carries(q, ep, n) && CarriesObfuscation(q, ep.obfuscation)
    requires Spelling(r, q) && "pk_keepalive" !in r && IsBytes(v) && "pk keepalive" !in q
    requires Lists(order, r["pk_keepalive" := v]) && Lists(keys, r["pk_keepalive" := v])
    ensures LinkOf(LinkIn(scheme, r["pk_keepalive" := v], ep, n, order), keys, parse, everything)
            == Ok(MeantAs(ep, !LooksPlain(ep.obfuscation), parse, everything))
  {
    PkKeepaliveIsSpelt(r, q, v);
    ExtraNameIsCarried(q, ep, n, "pk keepalive", v);
    ExtraKeyIsNoParameter(q, ep.obfuscation, "pk keepalive", v);
    AnyStyleIsReadBack(scheme, r["pk_keepalive" := v], q["pk keepalive" := v], ep, n, order, keys, parse, everything);
  }

  // ---- When it is the same endpoint ----

  /** The endpoint that comes back is the one that was printed exactly when the type agrees with
      the parser's test, that is, some text is there or the sum of the numbers does not wrap to
      zero, and there are allowed addresses. */
  lemma RoundTripExactly<P>(ep: SingboxEndpoint, order: seq<string>, keys: seq<string>, parse: string -> Option<P>,
          everything: seq<P>)
    requires Valid(ep, parse) && Lists(order, QueryOf(ep)) && Lists(keys, QueryOf(ep))
    ensures UriOf(ep, order).Some?
    ensures LinkOf(UriOf(ep, order).value, keys, parse, everything) == Ok(Meant(ep, parse))
            <==> && (Lower(ep.kind) == "awg" <==> !LooksPlain(ep.obfuscation))
                 && (ep.peers[0].allowedIPs != [] || everything == [])
  {
    PrintedLinkIsReadBack(ep, order, keys, parse, everything);
  }

  /** While the sum stays below 2^64 the parser's test is the printer's. */
  lemma TestsAgree(o: Obfuscation)
    requires ValidObfuscation(o) && Total8(o.numbers) < TWO_TO_64
    ensures LooksPlain(o) <==> !IsAwg(o)
  {
    forall k | k in NUMBER_KEYS
      ensures 0 <= o.numbers[k] <= Total8(o.numbers)
    {
      PartOfTotal(o.numbers, k);
    }
    if LooksPlain(o) {
      assert Total8(o.numbers) == 0;
    }
  }

  lemma PartOfTotal(n: map<string, int>, k: string)
    requires n.Keys == NUMBER_KEYS && k in NUMBER_KEYS && forall j :: j in n ==> n[j] >= 0
    ensures n[k] <= Total8(n)
    ensures (forall j :: j in n ==> n[j] == 0) ==> Total8(n) == 0
  {
  }

  /** Eight legal values whose sum is 2^64: an AmneziaWG endpoint that comes back as WireGuard. */
  lemma SumsCanWrap() returns (o: Obfuscation)
    ensures ValidObfuscation(o) && IsAwg(o) && LooksPlain(o)
  {
    var half := INT64_LIMIT - 1;
    o := Obfuscation(map k | k in NUMBER_KEYS :: if k == "jc" || k == "jmin" then half else if k == "s1" then 2 else 0,
                     map k | k in TEXT_KEYS :: "");
    assert o.numbers["s1"] != 0;
    assert Total8(o.numbers) == TWO_TO_64;
    assert ObfGrammar.MagicHeaderOk("") && ObfGrammar.ObfSpecOk("");
  }

  lemma SampleKey() returns (key: string)
    ensures IsKey(key)
  {
    var zeros: string := seq(Keys.WG_KEY_BYTES, _ => '\0');
    assert IsBytes(zeros) && |zeros| == Keys.WG_KEY_BYTES;
    key := Base64.Encode(zeros, Base64.Std, true);
  }

  lemma SamplePeer<P>(address: string, parse: string -> Option<P>) returns (peer: SingboxPeer)
    requires IsAddress(address, parse)
    ensures ValidPeer(peer, parse) && peer.allowedIPs != []
  {
    var key := SampleKey();
    assert Unreserved('h');
    assert NameHost("h");
    peer := SingboxPeer("h", 1, key, "", "", [address], 0, []);
    assert Psk(peer) == "" && ReservedCount(0);
  }

  /** Valid endpoints there are of either kind, with any legal parameters. */
  lemma SampleEndpoint<P>(kind: string, o: Obfuscation, address: string, parse: string -> Option<P>)
          returns (ep: SingboxEndpoint)
    requires Lower(kind) == "wireguard" || Lower(kind) == "awg"
    requires ValidObfuscation(o) && IsAddress(address, parse)
    ensures Valid(ep, parse) && ep.kind == kind && ep.obfuscation == o && ep.peers[0].allowedIPs != []
  {
    var key := SampleKey();
    var peer := SamplePeer(address, parse);
    ep := SingboxEndpoint(kind, "", key, [], 0, 0, 0, false, false, [peer], o);
  }

  /** So the printed kind can be lost: a valid AmneziaWG endpoint that comes back as WireGuard. */
  lemma AwgEndpointCanComeBackPlain<P>(address: string, parse: string -> Option<P>, everything: seq<P>)
    returns (ep: SingboxEndpoint, order: seq<string>)
    requires IsAddress(address, parse)
    ensures Valid(ep, parse) && Lower(ep.kind) == "awg" && IsAwg(ep.obfuscation)
    ensures Lists(order, QueryOf(ep)) && UriOf(ep, order).Some?
    ensures LinkOf(UriOf(ep, order).value, order, parse, everything) == Ok(MeantAs(ep, false, parse, everything))
    ensures MeantAs(ep, false, parse, everything) != Meant(ep, parse)
  {
    var o := SumsCanWrap();
    LowerAwg();
    ep := SampleEndpoint("awg", o, address, parse);
    order := EveryMapIsListed(QueryOf(ep));
    PrintedLinkIsReadBack(ep, order, order, parse, everything);
  }

  lemma LowerAwg()
    ensures Lower("awg") == "awg"
  {
  }
}
