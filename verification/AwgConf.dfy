/**
 A wg-quick file with any sections and key lines, in any order, and what AWGSingboxTxt
 (xray2sing/ray2sing/awg.go) makes of it.
 */
module AwgConf {
  import opened Common
  import opened GoStrings
  import opened Awg
  import opened AwgIni
  import AwgLink
  import Keys
  import Urls

  // ---- The file ----

  datatype InterfaceLine =
    | KeyLine(text: string) | AddressLine(list: seq<string>) | MtuLine(mtu: nat)
    | NumberLine(name: string, n: int) | TextLine(name: string, text: string)
    | ForeignSetting(key: string, text: string)

  datatype PeerLine =
    | PublicKeyLine(text: string) | PresharedKeyLine(text: string) | AllowedLine(list: seq<string>)
    | EndpointLine(host: string, port: nat) | KeepaliveLine(seconds: nat) | ReservedLine(bytes: seq<int>)
    | ForeignLine(key: string, text: string)

  datatype Section =
    InterfaceSection(settings: seq<InterfaceLine>) | PeerSection(lines: seq<PeerLine>)
    | OtherSection(name: string, texts: seq<string>)

  function KeyValue(key: string, value: string): string { key + " = " + value }

  /** Items with ", " between them. */
  function Listed(ss: seq<string>): string {
    if ss == [] then "" else if |ss| == 1 then ss[0] else ss[0] + ", " + Listed(ss[1..])
  }

  /** How an AmneziaWG parameter is written in the file. */
  function Shown(name: string): string {
    if name == "jc" then "Jc" else if name == "jmin" then "Jmin" else if name == "jmax" then "Jmax"
    else if name == "s1" then "S1" else if name == "s2" then "S2" else if name == "s3" then "S3"
    else if name == "s4" then "S4" else if name == "itime" then "Itime"
    else if name == "h1" then "H1" else if name == "h2" then "H2" else if name == "h3" then "H3"
    else if name == "h4" then "H4" else if name == "i1" then "I1" else if name == "i2" then "I2"
    else if name == "i3" then "I3" else if name == "i4" then "I4" else if name == "i5" then "I5"
    else if name == "j1" then "J1" else if name == "j2" then "J2" else if name == "j3" then "J3"
    else name
  }

  function InterfaceText(l: InterfaceLine): string {
    match l
    case KeyLine(t) => KeyValue("PrivateKey", t)
    case AddressLine(ss) => KeyValue("Address", Listed(ss))
    case MtuLine(n) => KeyValue("MTU", Itoa(n))
    case NumberLine(name, n) => KeyValue(Shown(name), ItoaInt(n))
    case TextLine(name, t) => KeyValue(Shown(name), t)
    case ForeignSetting(key, t) => KeyValue(key, t)
  }

  function EndpointText(host: string, port: nat): string {
    (if ':' in host then "[" + host + "]" else host) + ":" + Itoa(port)
  }

  function PeerText(l: PeerLine): string {
    match l
    case PublicKeyLine(t) => KeyValue("PublicKey", t)
    case PresharedKeyLine(t) => KeyValue("PresharedKey", t)
    case AllowedLine(ss) => KeyValue("AllowedIPs", Listed(ss))
    case EndpointLine(h, p) => KeyValue("Endpoint", EndpointText(h, p))
    case KeepaliveLine(n) => KeyValue("PersistentKeepalive", Itoa(n))
    case ReservedLine(ns) => KeyValue("Reserved", Listed(AwgLink.Decimals(ns)))
    case ForeignLine(key, t) => KeyValue(key, t)
  }

  function InterfaceTexts(ls: seq<InterfaceLine>): (r: seq<string>)
    ensures |r| == |ls|
  {
    seq(|ls|, i requires 0 <= i < |ls| => InterfaceText(ls[i]))
  }

  function PeerTexts(ls: seq<PeerLine>): (r: seq<string>)
    ensures |r| == |ls|
  {
    seq(|ls|, i requires 0 <= i < |ls| => PeerText(ls[i]))
  }

  function SectionTexts(s: Section): seq<string> {
    match s
    case InterfaceSection(ls) => ["[Interface]"] + InterfaceTexts(ls)
    case PeerSection(ls) => ["[Peer]"] + PeerTexts(ls)
    case OtherSection(name, texts) => ["[" + name + "]"] + texts
  }

  function FileLines(conf: seq<Section>): seq<string> {
    if conf == [] then [] else SectionTexts(conf[0]) + FileLines(conf[1..])
  }

  function FileText(conf: seq<Section>): string { Join(FileLines(conf), '\n') }

  // ---- Which lines are legal ----

  predicate IsValue(t: string) { Trimmed(t) && '#' !in t && '\n' !in t }

  predicate AreItems<P>(ss: seq<string>, parse: string -> Option<P>) {
    AwgLink.AreAddresses(ss, parse) && forall i :: 0 <= i < |ss| ==> IsValue(ss[i])
  }

  /** Known keys that mean nothing in an [Interface] section. */
  predicate ForeignToInterface(key: string) {
    || key == "DNS" || key == "PublicKey" || key == "PresharedKey" || key == "AllowedIPs" || key == "Endpoint"
    || key == "PersistentKeepalive" || key == "Reserved"
  }

  /** Known keys that mean nothing in a [Peer] section. */
  predicate ForeignToPeer(key: string) { key == "DNS" || key == "PrivateKey" || key == "Address" || key == "MTU" }

  predicate LegalSetting<P>(l: InterfaceLine, parse: string -> Option<P>) {
    match l
    case KeyLine(t) => IsValue(t)
    case AddressLine(ss) => ss != [] && AreItems(ss, parse)
    case MtuLine(n) => n < 0x1_0000_0000
    case NumberLine(name, n) => name in NUMBER_KEYS && -INT64_LIMIT <= n < INT64_LIMIT
    case TextLine(name, t) => name in TEXT_KEYS && IsValue(t)
    case ForeignSetting(key, t) => ForeignToInterface(key) && IsValue(t)
  }

  predicate LegalLine<P>(l: PeerLine, parse: string -> Option<P>) {
    match l
    case PublicKeyLine(t) => IsValue(t)
    case PresharedKeyLine(t) => IsValue(t)
    case AllowedLine(ss) => AreItems(ss, parse)
    case EndpointLine(h, p) => Urls.ValidHost(h) && 0 < p < 0x1_0000
    case KeepaliveLine(n) => n < 0x1_0000
    case ReservedLine(ns) => AwgLink.AreBytes(ns)
    case ForeignLine(key, t) => ForeignToPeer(key) && IsValue(t)
  }

  predicate LegalSettings<P>(ls: seq<InterfaceLine>, parse: string -> Option<P>) {
    forall i :: 0 <= i < |ls| ==> LegalSetting(ls[i], parse)
  }

  predicate LegalLines<P>(ls: seq<PeerLine>, parse: string -> Option<P>) {
    forall i :: 0 <= i < |ls| ==> LegalLine(ls[i], parse)
  }

  predicate AllLegal<P>(peers: seq<seq<PeerLine>>, parse: string -> Option<P>) {
    forall i :: 0 <= i < |peers| ==> LegalLines(peers[i], parse)
  }

  predicate OtherName(name: string) {
    && name != "" && '[' !in name && ']' !in name && '\n' !in name
    && Lower(name) != "interface" && Lower(name) != "peer"
  }

  /** Any text that opens no section. */
  predicate OtherText(text: string) { '\n' !in text && !HasPrefix(TrimSpace(text), "[") }

  predicate LegalSection<P>(s: Section, parse: string -> Option<P>) {
    match s
    case InterfaceSection(ls) => LegalSettings(ls, parse)
    case PeerSection(ls) => LegalLines(ls, parse)
    case OtherSection(name, texts) => OtherName(name) && forall i :: 0 <= i < |texts| ==> OtherText(texts[i])
  }

  predicate LegalFile<P>(conf: seq<Section>, parse: string -> Option<P>) {
    forall i :: 0 <= i < |conf| ==> LegalSection(conf[i], parse)
  }

  // ---- What a file says ----

  /** The last value that the lines give, or `none`. */
  function Last<L, V>(ls: seq<L>, pick: L -> Option<V>, none: V): V {
    if ls == [] then none
    else match pick(ls[|ls| - 1]) case Some(v) => v case None => Last(ls[..|ls| - 1], pick, none)
  }

  /** All the values that the lines give, in order. */
  function Gathered<L, V>(ls: seq<L>, pick: L -> seq<V>): seq<V> {
    if ls == [] then [] else Gathered(ls[..|ls| - 1], pick) + pick(ls[|ls| - 1])
  }

  function KeyIn(l: InterfaceLine): Option<string> { if l.KeyLine? then Some(l.text) else None }
  function MtuIn(l: InterfaceLine): Option<nat> { if l.MtuLine? then Some(l.mtu) else None }
  function AddressesIn(l: InterfaceLine): seq<string> { if l.AddressLine? then l.list else [] }

  function NumberIn(name: string): InterfaceLine -> Option<int> {
    (l: InterfaceLine) => if l.NumberLine? && l.name == name then Some(l.n) else None
  }

  function TextIn(name: string): InterfaceLine -> Option<string> {
    (l: InterfaceLine) => if l.TextLine? && l.name == name then Some(l.text) else None
  }

  function PublicKeyIn(l: PeerLine): Option<string> { if l.PublicKeyLine? then Some(l.text) else None }
  function PresharedKeyIn(l: PeerLine): Option<string> { if l.PresharedKeyLine? then Some(l.text) else None }
  function HostIn(l: PeerLine): Option<string> { if l.EndpointLine? then Some(l.host) else None }
  function PortIn(l: PeerLine): Option<nat> { if l.EndpointLine? then Some(l.port) else None }
  function KeepaliveIn(l: PeerLine): Option<nat> { if l.KeepaliveLine? then Some(l.seconds) else None }
  function AllowedIn(l: PeerLine): seq<string> { if l.AllowedLine? then l.list else [] }
  function ReservedIn(l: PeerLine): seq<int> { if l.ReservedLine? then l.bytes else [] }

  /** The [Interface] lines, wherever their sections stand. */
  function SettingsOf(conf: seq<Section>): seq<InterfaceLine> {
    if conf == [] then []
    else (if conf[0].InterfaceSection? then conf[0].settings else []) + SettingsOf(conf[1..])
  }

  function PeersIn(section: Section): seq<seq<PeerLine>> {
    if section.PeerSection? && section.lines != [] then [section.lines] else []
  }

  /** The [Peer] sections that hold a line. */
  function PeersOf(conf: seq<Section>): seq<seq<PeerLine>> {
    if conf == [] then [] else PeersIn(conf[0]) + PeersOf(conf[1..])
  }

  /** The AmneziaWG parameters; a negative number is dropped. */
  function ObfuscationOf(ls: seq<InterfaceLine>): (o: Obfuscation)
    ensures Total(o)
  {
    Obfuscation(map k | k in NUMBER_KEYS :: NotNegative(Last(ls, NumberIn(k), 0)),
                map k | k in TEXT_KEYS :: Last(ls, TextIn(k), ""))
  }

  function NotNegative(n: int): int { if n < 0 then 0 else n }

  lemma {:induction false} GatheredAddresses<P>(ls: seq<InterfaceLine>, parse: string -> Option<P>)
    requires LegalSettings(ls, parse)
    ensures AwgLink.AreAddresses(Gathered(ls, AddressesIn), parse)
    decreases |ls|
  {
    if ls != [] {
      GatheredAddresses(ls[..|ls| - 1], parse);
      assert LegalSetting(ls[|ls| - 1], parse);
    }
  }

  lemma {:induction false} GatheredAllowed<P>(ls: seq<PeerLine>, parse: string -> Option<P>)
    requires LegalLines(ls, parse)
    ensures AwgLink.AreAddresses(Gathered(ls, AllowedIn), parse) && AwgLink.AreBytes(Gathered(ls, ReservedIn))
    decreases |ls|
  {
    if ls != [] {
      GatheredAllowed(ls[..|ls| - 1], parse);
      assert LegalLine(ls[|ls| - 1], parse);
    }
  }

  lemma {:induction false} LegalParts<P>(conf: seq<Section>, parse: string -> Option<P>)
    requires LegalFile(conf, parse)
    ensures LegalSettings(SettingsOf(conf), parse)
    ensures AllLegal(PeersOf(conf), parse)
    decreases |conf|
  {
    if conf != [] {
      assert LegalSection(conf[0], parse);
      LegalParts(conf[1..], parse);
    }
  }

  /** The peer of a [Peer] section; without AllowedIPs it routes `everything`. */
  function PeerMeant<P>(ls: seq<PeerLine>, parse: string -> Option<P>, everything: seq<P>): Peer<P>
    requires LegalLines(ls, parse) && PeerFault(ls) == None
  {
    GatheredAllowed(ls, parse);
    var allowed := Gathered(ls, AllowedIn);
    Peer(Last(ls, HostIn, ""), Last(ls, PortIn, 0), Keys.NormalizeWgKey(Last(ls, PublicKeyIn, "")).value,
         Keys.NormalizeWgKey(Last(ls, PresharedKeyIn, "")).value,
         if allowed == [] then everything else AwgLink.Addresses(allowed, parse),
         Last(ls, KeepaliveIn, 0), AwgLink.Nats(Gathered(ls, ReservedIn)))
  }

  /** What a [Peer] section lacks. */
  function PeerFault(ls: seq<PeerLine>): Option<Failure> {
    if Last(ls, HostIn, "") == "" then Some(MissingEndpoint)
    else if Last(ls, PublicKeyIn, "") == "" then Some(MissingPublicKey)
    else if Keys.NormalizeWgKey(Last(ls, PublicKeyIn, "")).None?
            || Keys.NormalizeWgKey(Last(ls, PresharedKeyIn, "")).None? then Some(BadKey)
    else if |Gathered(ls, ReservedIn)| != 0 && |Gathered(ls, ReservedIn)| != 3 then Some(BadReserved)
    else None
  }

  predicate NoFaults(peers: seq<seq<PeerLine>>) { forall i :: 0 <= i < |peers| ==> PeerFault(peers[i]) == None }

  function FirstPeerFault(peers: seq<seq<PeerLine>>): Option<Failure> {
    if peers == [] then None
    else if PeerFault(peers[0]).Some? then PeerFault(peers[0])
    else FirstPeerFault(peers[1..])
  }

  lemma {:induction false} NoFirstFault(peers: seq<seq<PeerLine>>)
    requires FirstPeerFault(peers) == None
    ensures NoFaults(peers)
  {
    if peers != [] {
      NoFirstFault(peers[1..]);
      NoFaultsTogether(peers);
    }
  }

  lemma NoFaultsTogether(peers: seq<seq<PeerLine>>)
    requires peers != [] && PeerFault(peers[0]) == None && NoFaults(peers[1..])
    ensures NoFaults(peers)
  {
    forall i | 1 <= i < |peers|
      ensures PeerFault(peers[i]) == None
    {
      assert peers[i] == peers[1..][i - 1];
    }
  }

  /** What a file lacks: the first thing that is wrong with it. */
  function Fault(conf: seq<Section>): Option<Failure> {
    var settings, peers := SettingsOf(conf), PeersOf(conf);
    if Last(settings, KeyIn, "") == "" then Some(MissingPrivateKey)
    else if Keys.NormalizeWgKey(Last(settings, KeyIn, "")).None? then Some(BadKey)
    else if peers == [] then Some(MissingEndpoint)
    else if FirstPeerFault(peers).Some? then FirstPeerFault(peers)
    else if !HeadersOk(ObfuscationOf(settings)) then Some(BadHeader)
    else if !SpecsOk(ObfuscationOf(settings)) then Some(BadSpec)
    else None
  }

  function PeersMeant<P>(peers: seq<seq<PeerLine>>, parse: string -> Option<P>, everything: seq<P>): seq<Peer<P>>
    requires AllLegal(peers, parse) && NoFaults(peers)
  {
    if peers == [] then []
    else [PeerMeant(peers[0], parse, everything)] + PeersMeant(peers[1..], parse, everything)
  }

  /** WireGuard without AmneziaWG parameters. */
  function Kind<P>(key: string, addresses: seq<P>, mtu: nat, o: Obfuscation, peers: seq<Peer<P>>): Endpoint<P>
    requires Total(o)
  {
    if LooksPlain(o) then WireGuard("wireguard", key, addresses, mtu, 0, peers)
    else AmneziaWG("awg", key, addresses, mtu, o, peers)
  }

  /** The endpoint that a file without a fault describes. */
  function Meant<P>(conf: seq<Section>, parse: string -> Option<P>, everything: seq<P>): Endpoint<P>
    requires LegalFile(conf, parse) && Fault(conf) == None
  {
    LegalParts(conf, parse);
    GatheredAddresses(SettingsOf(conf), parse);
    NoFirstFault(PeersOf(conf));
    var settings := SettingsOf(conf);
    var key, o := Keys.NormalizeWgKey(Last(settings, KeyIn, "")).value, ObfuscationOf(settings);
    var addresses, mtu := AwgLink.Addresses(Gathered(settings, AddressesIn), parse), Last(settings, MtuIn, 0);
    var peers := PeersMeant(PeersOf(conf), parse, everything);
    Kind(key, addresses, mtu, o, peers)
  }

  // ---- Each line is understood ----

  predicate WgName(k: string) {
    || k == "PrivateKey" || k == "PublicKey" || k == "PresharedKey" || k == "Address" || k == "AllowedIPs"
    || k == "Endpoint" || k == "MTU" || k == "DNS" || k == "PersistentKeepalive" || k == "Reserved"
  }

  function Lowered(k: string): string
    requires WgName(k)
  {
    if k == "PrivateKey" then "privatekey" else if k == "PublicKey" then "publickey"
    else if k == "PresharedKey" then "presharedkey" else if k == "Address" then "address"
    else if k == "AllowedIPs" then "allowedips" else if k == "Endpoint" then "endpoint"
    else if k == "MTU" then "mtu" else if k == "DNS" then "dns"
    else if k == "PersistentKeepalive" then "persistentkeepalive" else "reserved"
  }

  lemma WgLetters(k: string)
    requires WgName(k)
    ensures KeyText(k)
  {
  }

  predicate WgKeyName(k: string) { k == "PrivateKey" || k == "PublicKey" || k == "PresharedKey" || k == "Reserved" }

  lemma WgKeyLowered(k: string)
    requires WgKeyName(k)
    ensures Lower(k) == Lowered(k)
  {
  }

  lemma WgOtherLowered(k: string)
    requires WgName(k) && !WgKeyName(k)
    ensures Lower(k) == Lowered(k)
  {
  }

  lemma WgKeyRow(k: string)
    requires WgKeyName(k)
    ensures Lowered(k) in WG_KEY_TABLE && WG_KEY_TABLE[Lowered(k)] == k
  {
  }

  lemma WgOtherRow(k: string)
    requires WgName(k) && !WgKeyName(k)
    ensures Lowered(k) in WG_KEY_TABLE && WG_KEY_TABLE[Lowered(k)] == k
  {
  }

  lemma WgIsNotAwg(k: string)
    requires WgName(k)
    ensures Lowered(k) !in AWG_KEY_TABLE
  {
  }

  lemma WgNames(k: string)
    requires WgName(k)
    ensures CanonicalKey(k) == k && KeyText(k)
  {
    WgLetters(k);
    if WgKeyName(k) {
      WgKeyLowered(k);
      WgKeyRow(k);
    } else {
      WgOtherLowered(k);
      WgOtherRow(k);
    }
    WgIsNotAwg(k);
  }

  lemma NumberIsShown(name: string)
    requires name in NUMBER_KEYS
    ensures Lower(Shown(name)) == name && KeyText(Shown(name))
  {
    NumberLetters(name);
  }

  lemma NumberLetters(name: string)
    requires name in NUMBER_KEYS
    ensures KeyText(Shown(name))
  {
  }

  lemma HeaderIsShown(name: string)
    requires name in HEADER_KEYS
    ensures Lower(Shown(name)) == name && KeyText(Shown(name))
  {
    HeaderLetters(name);
    LowerOfTwo('H', name[1]);
  }

  lemma HeaderLetters(name: string)
    requires name in HEADER_KEYS
    ensures |name| == 2 && name[0] == 'h' && IsDigit(name[1]) && Shown(name) == ['H', name[1]]
  {
  }

  lemma SpecIsShown(name: string)
    requires name in SPEC_KEYS
    ensures Lower(Shown(name)) == name && KeyText(Shown(name))
  {
    SpecLetters(name);
    LowerOfTwo('I', name[1]);
  }

  lemma SpecLetters(name: string)
    requires name in SPEC_KEYS
    ensures |name| == 2 && name[0] == 'i' && IsDigit(name[1]) && Shown(name) == ['I', name[1]]
  {
  }

  lemma LowerOfTwo(c: char, d: char)
    requires 'A' <= c <= 'Z' && IsDigit(d)
    ensures Lower([c, d]) == [LowerChar(c), d]
  {
  }

  lemma JunkIsShown(name: string)
    requires name in JUNK_KEYS
    ensures Lower(Shown(name)) == name && KeyText(Shown(name))
  {
    JunkLetters(name);
    LowerOfTwo('J', name[1]);
  }

  lemma JunkLetters(name: string)
    requires name in JUNK_KEYS
    ensures |name| == 2 && name[0] == 'j' && IsDigit(name[1]) && Shown(name) == ['J', name[1]]
  {
  }

  lemma NumberRow(name: string)
    requires name in NUMBER_KEYS
    ensures name in AWG_KEY_TABLE && AWG_KEY_TABLE[name] == Shown(name)
  {
  }

  lemma HeaderRow(name: string)
    requires name in HEADER_KEYS
    ensures name in AWG_KEY_TABLE && AWG_KEY_TABLE[name] == Shown(name)
  {
  }

  lemma SpecRow(name: string)
    requires name in SPEC_KEYS
    ensures name in AWG_KEY_TABLE && AWG_KEY_TABLE[name] == Shown(name)
  {
  }

  /** The table does not have these. */
  lemma JunkRow(name: string)
    requires name in JUNK_KEYS
    ensures name !in AWG_KEY_TABLE && name !in WG_KEY_TABLE
  {
  }

  lemma InTheTable(k: string)
    requires Lower(k) in AWG_KEY_TABLE && AWG_KEY_TABLE[Lower(k)] == k
    ensures CanonicalKey(k) == k
  {
  }

  lemma ShownNames(name: string)
    requires name in NUMBER_KEYS || name in TEXT_KEYS
    ensures CanonicalKey(Shown(name)) == Shown(name) && KeyText(Shown(name))
  {
    if name in NUMBER_KEYS {
      NumberIsShown(name);
      NumberRow(name);
      InTheTable(Shown(name));
    } else if name in HEADER_KEYS {
      HeaderIsShown(name);
      HeaderRow(name);
      InTheTable(Shown(name));
    } else if name in SPEC_KEYS {
      SpecIsShown(name);
      SpecRow(name);
      InTheTable(Shown(name));
    } else {
      JunkIsShown(name);
      JunkRow(name);
    }
  }

  lemma {:induction false} TrimRightOfValue(k: string, v: string)
    requires Trimmed(v)
    ensures TrimSpace(TrimRight(" " + v)) == v
  {
    if v == "" {
      assert " " + v == " " && " "[..0] == "";
    } else {
      var t := " " + v;
      assert t[|t| - 1] == v[|v| - 1];
      TrimSpaceAround(" ", v, "");
      assert " " + v + "" == t;
    }
  }

  /** A line is read as the entry it was written as. */
  lemma LineIsEntry(k: string, v: string)
    requires KeyText(k) && CanonicalKey(k) == k && IsValue(v)
    ensures Classify(KeyValue(k, v)) == Entry(k, v)
  {
    assert KeyValue(k, v) == SpacedLine("", k, " ", " " + v);
    TrimmedLine("", k, " ", " " + v);
    CutOfLine(k, " ", TrimRight(" " + v));
    TrimRightOfValue(k, v);
  }

  lemma InterfaceHeader()
    ensures Classify("[Interface]") == Header("interface")
  {
    HeaderCut("Interface");
    assert "[Interface]" == "[" + "Interface" + "]";
    InterfaceLowered();
  }

  lemma InterfaceLowered()
    ensures Lower("Interface") == "interface"
  {
  }

  lemma PeerHeader()
    ensures Classify("[Peer]") == Header("peer")
  {
    HeaderCut("Peer");
    assert "[Peer]" == "[" + "Peer" + "]";
    assert Lower("Peer") == "peer";
  }

  lemma HeaderCut(name: string)
    requires name != "" && '[' !in name && ']' !in name
    ensures Classify("[" + name + "]") == Header(Lower(name))
  {
    var line := "[" + name + "]";
    assert Trimmed(line);
    TrimSpaceOfTrimmed(line);
    BracketsTrimmed(name);
  }

  lemma BracketsTrimmed(name: string)
    requires name != "" && '[' !in name && ']' !in name
    ensures TrimBracketsRight(TrimBracketsLeft("[" + name + "]")) == name
  {
    var line := "[" + name + "]";
    assert TrimBracketsLeft(line) == name + "]" by {
      assert line[1..] == name + "]" && line[1] in name;
    }
    assert TrimBracketsRight(name + "]") == name by {
      assert (name + "]")[..|name|] == name && name[|name| - 1] in name;
    }
  }

  // ---- Each value is understood ----

  lemma {:induction false} ListedIsValue(ss: seq<string>)
    requires forall i :: 0 <= i < |ss| ==> IsValue(ss[i]) && ss[i] != ""
    ensures IsValue(Listed(ss)) && (ss != [] ==> Listed(ss) != "")
  {
    if |ss| > 1 {
      ListedIsValue(ss[1..]);
      var v := ss[0] + ", " + Listed(ss[1..]);
      assert v[0] == ss[0][0] && v[|v| - 1] == Listed(ss[1..])[|Listed(ss[1..])| - 1];
    }
  }

  function Padded(ss: seq<string>): (r: seq<string>)
    ensures |r| == |ss|
  {
    seq(|ss|, i requires 0 <= i < |ss| => " " + ss[i])
  }

  lemma ListedCut(first: string, rest: string)
    requires ',' !in first
    ensures Split(first + ", " + rest, ',') == [first] + Split(" " + rest, ',')
    ensures Split(" " + (first + ", " + rest), ',') == [" " + first] + Split(" " + rest, ',')
  {
    assert first + ", " + rest == first + [','] + (" " + rest);
    assert " " + (first + ", " + rest) == (" " + first) + [','] + (" " + rest);
    SplitAt(first, ',', " " + rest);
    SplitAt(" " + first, ',', " " + rest);
  }

  lemma ListedStep(first: string, rest: seq<string>)
    ensures rest != [] ==> Listed([first] + rest) == first + ", " + Listed(rest)
    ensures Padded([first] + rest) == [" " + first] + Padded(rest)
    ensures Listed([first]) == first
  {
    assert ([first] + rest)[1..] == rest;
  }

  lemma {:induction false} SplitListed(first: string, rest: seq<string>)
    requires ',' !in first && Free(rest, ',')
    ensures Split(Listed([first] + rest), ',') == [first] + Padded(rest)
    ensures Split(" " + Listed([first] + rest), ',') == [" " + first] + Padded(rest)
    decreases |rest|
  {
    ListedStep(first, rest);
    if rest == [] {
      assert [first] + rest == [first];
      SplitAt(first, ',', "");
      SplitAt(" " + first, ',', "");
    } else {
      var second, more := rest[0], rest[1..];
      assert rest == [second] + more;
      SplitListed(second, more);
      ListedStep(second, more);
      ListedCut(first, Listed(rest));
    }
  }

  predicate SameButBlanks(parts: seq<string>, ss: seq<string>) {
    |parts| == |ss| && forall i :: 0 <= i < |ss| ==> TrimSpace(parts[i]) == ss[i]
  }

  lemma TrimsToItself(t: string)
    requires Trimmed(t)
    ensures TrimSpace(t) == t && TrimSpace(" " + t) == t
  {
    TrimSpaceOfTrimmed(t);
    TrimSpaceAround(" ", t, "");
    assert " " + t + "" == " " + t;
  }

  lemma PaddedIsTheSame(first: string, rest: seq<string>)
    requires Trimmed(first) && forall i :: 0 <= i < |rest| ==> Trimmed(rest[i])
    ensures SameButBlanks([first] + Padded(rest), [first] + rest)
  {
    TrimsToItself(first);
    forall i | 0 <= i < |rest|
      ensures TrimSpace(Padded(rest)[i]) == rest[i]
    {
      TrimsToItself(rest[i]);
    }
  }

  lemma FirstPartAndRest(first: string, rest: seq<string>)
    requires Trimmed(first) && ',' !in first
    requires forall i :: 0 <= i < |rest| ==> Trimmed(rest[i]) && ',' !in rest[i]
    ensures SameButBlanks(Split(Listed([first] + rest), ','), [first] + rest)
  {
    SplitListed(first, rest);
    PaddedIsTheSame(first, rest);
  }

  lemma PartsAreItems(ss: seq<string>)
    requires ss != [] && forall i :: 0 <= i < |ss| ==> Trimmed(ss[i]) && ',' !in ss[i]
    ensures SameButBlanks(Split(Listed(ss), ','), ss)
  {
    FirstPartAndRest(ss[0], ss[1..]);
    assert [ss[0]] + ss[1..] == ss;
  }

  lemma {:induction false} ItemsParse<P>(parts: seq<string>, ss: seq<string>, parse: string -> Option<P>)
    requires SameButBlanks(parts, ss) && AwgLink.AreAddresses(ss, parse)
    ensures ParseAll(parts, parse) == Some(AwgLink.Addresses(ss, parse))
    decreases |parts|
  {
    if parts != [] {
      assert AwgLink.IsAddress(ss[0], parse) && TrimSpace(parts[0]) == ss[0];
      ItemsParse(parts[1..], ss[1..], parse);
      assert AwgLink.Addresses(ss, parse) == [parse(ss[0]).value] + AwgLink.Addresses(ss[1..], parse);
    }
  }

  lemma {:induction false} NoneIsBlank(parts: seq<string>)
    requires forall i :: 0 <= i < |parts| ==> TrimSpace(parts[i]) != ""
    ensures NonBlank(parts) == parts
    decreases |parts|
  {
    if parts != [] {
      NoneIsBlank(parts[1..]);
    }
  }

  lemma {:induction false} BytesParse(parts: seq<string>, ns: seq<int>)
    requires SameButBlanks(parts, AwgLink.Decimals(ns)) && AwgLink.AreBytes(ns)
    ensures ParseBytes(parts) == Some(AwgLink.Nats(ns))
    decreases |parts|
  {
    if parts != [] {
      assert TrimSpace(parts[0]) == AwgLink.Decimals(ns)[0];
      AwgLink.DecimalReadsBack(ns[0]);
      AwgLink.DecimalsStep(ns);
      assert AwgLink.Decimals(ns)[1..] == AwgLink.Decimals(ns[1..]);
      BytesParse(parts[1..], ns[1..]);
      AwgLink.ParseBytesStep(parts[0], ns[0], parts[1..], AwgLink.Nats(ns[1..]));
      assert parts == [parts[0]] + parts[1..];
    } else {
      assert AwgLink.Nats(ns) == [];
    }
  }

  lemma EmptyList()
    ensures Split(Listed([]), ',') == [""] && NonBlank([""]) == []
  {
    assert [""][1..] == [] && TrimSpace("") == "";
  }

  lemma AddressesParse<P>(ss: seq<string>, parse: string -> Option<P>)
    requires AreItems(ss, parse)
    ensures IsValue(Listed(ss))
    ensures ss != [] ==> ParseAll(Split(Listed(ss), ','), parse) == Some(AwgLink.Addresses(ss, parse))
    ensures ParseAll(NonBlank(Split(Listed(ss), ',')), parse) == Some(AwgLink.Addresses(ss, parse))
  {
    forall i | 0 <= i < |ss|
      ensures IsValue(ss[i]) && ss[i] != "" && ',' !in ss[i]
    {
      assert AwgLink.IsAddress(ss[i], parse);
    }
    ListedIsValue(ss);
    if ss == [] {
      EmptyList();
    } else {
      PartsAreItems(ss);
      ItemsParse(Split(Listed(ss), ','), ss, parse);
      NoneIsBlank(Split(Listed(ss), ','));
    }
  }

  lemma ReservedParses(ns: seq<int>)
    requires AwgLink.AreBytes(ns)
    ensures IsValue(Listed(AwgLink.Decimals(ns)))
    ensures ParseBytes(NonBlank(Split(Listed(AwgLink.Decimals(ns)), ','))) == Some(AwgLink.Nats(ns))
  {
    var ss := AwgLink.Decimals(ns);
    forall i | 0 <= i < |ss|
      ensures IsValue(ss[i]) && ss[i] != "" && ',' !in ss[i]
    {
      DecimalIsValue(ns[i]);
    }
    ListedIsValue(ss);
    if ss == [] {
      EmptyList();
      assert AwgLink.Nats(ns) == [];
    } else {
      PartsAreItems(ss);
      NoneIsBlank(Split(Listed(ss), ','));
      BytesParse(Split(Listed(ss), ','), ns);
    }
  }

  lemma DecimalIsValue(n: int)
    ensures IsValue(ItoaInt(n)) && ItoaInt(n) != "" && ',' !in ItoaInt(n)
  {
    var digits := Itoa(if n < 0 then -n else n);
    assert IsDigit(digits[0]) && IsDigit(digits[|digits| - 1]);
    assert !IsDigit('#') && !IsDigit('\n') && !IsDigit(',');
  }

  lemma NumberParses(n: int)
    requires -INT64_LIMIT <= n < INT64_LIMIT
    ensures Atoi(ItoaInt(n)).value == n
  {
    if n < 0 {
      ItoaValue(-n);
      assert ("-" + Itoa(-n))[1..] == Itoa(-n);
    } else {
      NumbersReadBack(n);
    }
  }

  lemma EndpointIsValue(host: string, port: nat)
    requires Urls.ValidHost(host)
    ensures IsValue(EndpointText(host, port))
  {
    var d := Itoa(port);
    assert IsDigit(d[|d| - 1]) && !IsDigit('#') && !IsDigit('\n');
    var t := EndpointText(host, port);
    assert t[|t| - 1] == d[|d| - 1];
    assert '#' !in host && '\n' !in host && (host != "" ==> !IsSpace(host[0]));
  }

  lemma NameSplits(host: string, d: string)
    requires Urls.NameHost(host) && AllDigits(d)
    ensures SplitHostPort(host + ":" + d) == Some(HostAndPort(host, d))
  {
    assert !IsDigit(':') && !IsDigit('[') && !IsDigit(']');
    assert ':' !in host && '[' !in host && ']' !in host;
    LastIndexByteAt(host, ':', d);
    assert (host + ":" + d)[0] == host[0];
  }

  lemma BracketedSplit(s: string, end: nat)
    requires s != "" && s[0] == '[' && end + 1 < |s|
    requires IndexByte(s, ']') == end && LastIndexByte(s, ':') == end + 1
    requires '[' !in s[1..] && ']' !in s[end + 1..]
    ensures SplitHostPort(s) == Some(HostAndPort(s[1..end], s[end + 2..]))
  {
  }

  lemma BracketsSplit(host: string, d: string)
    requires '[' !in host && ']' !in host && ':' !in d && ']' !in d && '[' !in d
    ensures SplitHostPort("[" + host + "]" + ":" + d) == Some(HostAndPort(host, d))
  {
    var s := "[" + host + "]" + [':'] + d;
    LastIndexByteAt("[" + host + "]", ':', d);
    BracketAt(host, d);
    BracketSlices(host, d);
    BracketedSplit(s, |host| + 1);
  }

  lemma BracketSlices(host: string, d: string)
    ensures ("[" + host + "]" + [':'] + d)[1..] == host + "]" + ":" + d
    ensures ("[" + host + "]" + [':'] + d)[|host| + 2..] == ":" + d
  {
  }

  lemma BracketAt(host: string, d: string)
    requires ']' !in host
    ensures IndexByte("[" + host + "]" + [':'] + d, ']') == |host| + 1
    ensures ("[" + host + "]" + [':'] + d)[1..|host| + 1] == host
  {
    assert "[" + host + "]" + [':'] + d == ("[" + host) + [']'] + (":" + d);
    IndexByteAt("[" + host, ']', ":" + d);
  }

  lemma Ipv6Splits(host: string, d: string)
    requires Urls.Ipv6Host(host) && AllDigits(d)
    ensures SplitHostPort("[" + host + "]" + ":" + d) == Some(HostAndPort(host, d))
  {
    assert !IsDigit(':') && !IsDigit('[') && !IsDigit(']');
    assert '[' !in host && ']' !in host;
    BracketsSplit(host, d);
  }

  lemma EndpointSplits(host: string, port: nat)
    requires Urls.ValidHost(host)
    ensures SplitHostPort(EndpointText(host, port)) == Some(HostAndPort(host, Itoa(port)))
  {
    if Urls.Ipv6Host(host) {
      Ipv6Splits(host, Itoa(port));
    } else {
      NameSplits(host, Itoa(port));
    }
  }

  // ---- One line after the other ----

  /** The interface that a line changes. */
  function Put<P>(i: Interface<P>, l: InterfaceLine, parse: string -> Option<P>): Interface<P>
    requires l.AddressLine? ==> AwgLink.AreAddresses(l.list, parse)
  {
    match l
    case KeyLine(t) => i.(privateKey := t)
    case AddressLine(ss) => i.(addresses := i.addresses + AwgLink.Addresses(ss, parse))
    case MtuLine(n) => i.(mtu := n)
    case ForeignSetting(_, _) => i
    case NumberLine(k, n) => i.(obfuscation := i.obfuscation.(numbers := i.obfuscation.numbers[k := n]))
    case TextLine(k, t) => i.(obfuscation := i.obfuscation.(texts := i.obfuscation.texts[k := t]))
  }

  function PutAll<P>(i: Interface<P>, ls: seq<InterfaceLine>, parse: string -> Option<P>): Interface<P>
    requires LegalSettings(ls, parse)
  {
    if ls == [] then i else Put(PutAll(i, ls[..|ls| - 1], parse), ls[|ls| - 1], parse)
  }

  function PutPeer<P>(p: Peer<P>, l: PeerLine, parse: string -> Option<P>): Peer<P>
    requires LegalLine(l, parse)
  {
    match l
    case PublicKeyLine(t) => p.(publicKey := t)
    case PresharedKeyLine(t) => p.(presharedKey := t)
    case AllowedLine(ss) => p.(allowedIPs := p.allowedIPs + AwgLink.Addresses(ss, parse))
    case EndpointLine(h, port) => p.(address := h, port := port)
    case KeepaliveLine(n) => p.(keepalive := n)
    case ReservedLine(ns) => p.(reserved := p.reserved + AwgLink.Nats(ns))
    case ForeignLine(_, _) => p
  }

  function PutPeerAll<P>(p: Peer<P>, ls: seq<PeerLine>, parse: string -> Option<P>): Peer<P>
    requires LegalLines(ls, parse)
  {
    if ls == [] then p else PutPeer(PutPeerAll(p, ls[..|ls| - 1], parse), ls[|ls| - 1], parse)
  }

  /** The key and the value that a line is written with. */
  function SettingOf(l: InterfaceLine): Setting {
    match l
    case KeyLine(t) => Setting("PrivateKey", t)
    case AddressLine(ss) => Setting("Address", Listed(ss))
    case MtuLine(n) => Setting("MTU", Itoa(n))
    case NumberLine(name, n) => Setting(Shown(name), ItoaInt(n))
    case TextLine(name, t) => Setting(Shown(name), t)
    case ForeignSetting(key, t) => Setting(key, t)
  }

  function PeerSettingOf(l: PeerLine): Setting {
    match l
    case PublicKeyLine(t) => Setting("PublicKey", t)
    case PresharedKeyLine(t) => Setting("PresharedKey", t)
    case AllowedLine(ss) => Setting("AllowedIPs", Listed(ss))
    case EndpointLine(h, p) => Setting("Endpoint", EndpointText(h, p))
    case KeepaliveLine(n) => Setting("PersistentKeepalive", Itoa(n))
    case ReservedLine(ns) => Setting("Reserved", Listed(AwgLink.Decimals(ns)))
    case ForeignLine(key, t) => Setting(key, t)
  }

  lemma SettingIsValue<P>(l: InterfaceLine, parse: string -> Option<P>)
    requires LegalSetting(l, parse)
    ensures IsValue(SettingOf(l).value)
  {
    match l
    case AddressLine(ss) => AddressesParse(ss, parse);
    case MtuLine(n) => DecimalIsValue(n);
    case NumberLine(_, n) => DecimalIsValue(n);
    case _ =>
  }

  lemma SettingName<P>(l: InterfaceLine, parse: string -> Option<P>)
    requires LegalSetting(l, parse)
    ensures CanonicalKey(SettingOf(l).key) == SettingOf(l).key && KeyText(SettingOf(l).key)
  {
    if l.NumberLine? || l.TextLine? {
      ShownNames(l.name);
    } else {
      WgNames(SettingOf(l).key);
    }
  }

  lemma SettingIsEntry<P>(l: InterfaceLine, parse: string -> Option<P>)
    requires LegalSetting(l, parse)
    ensures Classify(InterfaceText(l)) == Entry(SettingOf(l).key, SettingOf(l).value)
  {
    SettingIsValue(l, parse);
    SettingName(l, parse);
    LineIsEntry(SettingOf(l).key, SettingOf(l).value);
  }

  lemma PeerSettingIsValue<P>(l: PeerLine, parse: string -> Option<P>)
    requires LegalLine(l, parse)
    ensures IsValue(PeerSettingOf(l).value)
  {
    match l
    case AllowedLine(ss) => AddressesParse(ss, parse);
    case EndpointLine(h, p) => EndpointIsValue(h, p);
    case KeepaliveLine(n) => DecimalIsValue(n);
    case ReservedLine(ns) => ReservedParses(ns);
    case _ =>
  }

  lemma PeerSettingIsEntry<P>(l: PeerLine, parse: string -> Option<P>)
    requires LegalLine(l, parse)
    ensures Classify(PeerText(l)) == Entry(PeerSettingOf(l).key, PeerSettingOf(l).value)
  {
    PeerSettingIsValue(l, parse);
    WgNames(PeerSettingOf(l).key);
    LineIsEntry(PeerSettingOf(l).key, PeerSettingOf(l).value);
  }

  lemma NumberNames(name: string)
    requires name in NUMBER_KEYS
    ensures Shown(name) in NUMBER_NAMES && NUMBER_NAMES[Shown(name)] == name
  {
  }

  lemma HeaderNames(name: string)
    requires name in HEADER_KEYS
    ensures Shown(name) in TEXT_NAMES && TEXT_NAMES[Shown(name)] == name
  {
  }

  lemma SpecNames(name: string)
    requires name in SPEC_KEYS
    ensures Shown(name) in TEXT_NAMES && TEXT_NAMES[Shown(name)] == name
  {
  }

  lemma JunkNames(name: string)
    requires name in JUNK_KEYS
    ensures Shown(name) in TEXT_NAMES && TEXT_NAMES[Shown(name)] == name
  {
  }

  lemma TextNames(name: string)
    requires name in TEXT_KEYS
    ensures Shown(name) in TEXT_NAMES && TEXT_NAMES[Shown(name)] == name
  {
    if name in HEADER_KEYS {
      HeaderNames(name);
    } else if name in SPEC_KEYS {
      SpecNames(name);
    } else {
      JunkNames(name);
    }
  }

  predicate TextName(k: string) { |k| == 2 && (k[0] == 'H' || k[0] == 'I' || k[0] == 'J') && IsDigit(k[1]) }

  lemma TextLetters(name: string)
    requires name in TEXT_KEYS
    ensures TextName(Shown(name))
  {
    if name in HEADER_KEYS {
      HeaderLetters(name);
    } else if name in SPEC_KEYS {
      SpecLetters(name);
    } else {
      JunkLetters(name);
    }
  }

  lemma TextIsNoNumber(k: string)
    requires TextName(k)
    ensures k !in NUMBER_NAMES && k != "PrivateKey" && k != "Address" && k != "MTU"
  {
  }

  lemma NumberIsNoOther(k: string)
    requires k in NUMBER_NAMES
    ensures k != "PrivateKey" && k != "Address" && k != "MTU"
  {
  }

  lemma SetsNumberKey<P>(i: Interface<P>, k: string, v: string, name: string, n: int, parse: string -> Option<P>)
    requires k in NUMBER_NAMES && NUMBER_NAMES[k] == name && Atoi(v).value == n
    ensures SetInterface(i, k, v, parse) == Ok(Put(i, NumberLine(name, n), parse))
  {
    NumberIsNoOther(k);
  }

  lemma SetsTextKey<P>(i: Interface<P>, k: string, v: string, name: string, parse: string -> Option<P>)
    requires k in TEXT_NAMES && TEXT_NAMES[k] == name && TextName(k)
    ensures SetInterface(i, k, v, parse) == Ok(Put(i, TextLine(name, v), parse))
  {
    TextIsNoNumber(k);
  }

  lemma SetsNumber<P>(i: Interface<P>, name: string, n: int, parse: string -> Option<P>)
    requires name in NUMBER_KEYS && -INT64_LIMIT <= n < INT64_LIMIT
    ensures SetInterface(i, Shown(name), ItoaInt(n), parse) == Ok(Put(i, NumberLine(name, n), parse))
  {
    NumberNames(name);
    NumberParses(n);
    SetsNumberKey(i, Shown(name), ItoaInt(n), name, n, parse);
  }

  lemma SetsText<P>(i: Interface<P>, name: string, t: string, parse: string -> Option<P>)
    requires name in TEXT_KEYS && IsValue(t)
    ensures SetInterface(i, Shown(name), t, parse) == Ok(Put(i, TextLine(name, t), parse))
  {
    TextNames(name);
    TextLetters(name);
    SetsTextKey(i, Shown(name), t, name, parse);
  }

  lemma SetsWg<P>(i: Interface<P>, l: InterfaceLine, parse: string -> Option<P>)
    requires LegalSetting(l, parse) && !l.NumberLine? && !l.TextLine? && !l.ForeignSetting?
    ensures SetInterface(i, SettingOf(l).key, SettingOf(l).value, parse) == Ok(Put(i, l, parse))
  {
    match l
    case AddressLine(ss) => AddressesParse(ss, parse);
    case MtuLine(n) => NumbersReadBack(n);
    case _ =>
  }

  lemma ForeignIsNoParameter(key: string)
    requires ForeignToInterface(key)
    ensures key !in NUMBER_NAMES && key !in TEXT_NAMES
  {
  }

  lemma SetsNothing<P>(i: Interface<P>, key: string, t: string, parse: string -> Option<P>)
    requires ForeignToInterface(key)
    ensures SetInterface(i, key, t, parse) == Ok(i)
  {
    ForeignIsNoParameter(key);
  }

  lemma Sets<P>(i: Interface<P>, l: InterfaceLine, parse: string -> Option<P>)
    requires LegalSetting(l, parse)
    ensures SetInterface(i, SettingOf(l).key, SettingOf(l).value, parse) == Ok(Put(i, l, parse))
  {
    match l
    case NumberLine(name, n) => SetsNumber(i, name, n, parse);
    case TextLine(name, t) => SetsText(i, name, t, parse);
    case ForeignSetting(key, t) => SetsNothing(i, key, t, parse);
    case _ => SetsWg(i, l, parse);
  }

  lemma SetsEndpoint<P>(p: Peer<P>, host: string, port: nat, parse: string -> Option<P>)
    requires Urls.ValidHost(host) && 0 < port < 0x1_0000
    ensures SetPeer(p, "Endpoint", EndpointText(host, port), parse) == Ok(p.(address := host, port := port))
  {
    EndpointSplits(host, port);
    NatParses(port);
  }

  lemma SetsAllowed<P>(p: Peer<P>, ss: seq<string>, parse: string -> Option<P>)
    requires AreItems(ss, parse)
    ensures SetPeer(p, "AllowedIPs", Listed(ss), parse)
            == Ok(p.(allowedIPs := p.allowedIPs + AwgLink.Addresses(ss, parse)))
  {
    AddressesParse(ss, parse);
  }

  lemma SetsReserved<P>(p: Peer<P>, ns: seq<int>, parse: string -> Option<P>)
    requires AwgLink.AreBytes(ns)
    ensures SetPeer(p, "Reserved", Listed(AwgLink.Decimals(ns)), parse)
            == Ok(p.(reserved := p.reserved + AwgLink.Nats(ns)))
  {
    ReservedParses(ns);
  }

  lemma SetsKeepalive<P>(p: Peer<P>, n: nat, parse: string -> Option<P>)
    requires n < 0x1_0000
    ensures SetPeer(p, "PersistentKeepalive", Itoa(n), parse) == Ok(p.(keepalive := n))
  {
    NatParses(n);
  }

  lemma NatParses(n: nat)
    requires n < 0x1_0000
    ensures Atoi(Itoa(n)) == Number(n, true) && Uint16(n) == n
  {
    NumbersReadBack(n);
  }

  lemma SetsPeer<P>(p: Peer<P>, l: PeerLine, parse: string -> Option<P>)
    requires LegalLine(l, parse)
    ensures SetPeer(p, PeerSettingOf(l).key, PeerSettingOf(l).value, parse) == Ok(PutPeer(p, l, parse))
  {
    match l
    case AllowedLine(ss) => SetsAllowed(p, ss, parse);
    case EndpointLine(h, port) => SetsEndpoint(p, h, port, parse);
    case KeepaliveLine(n) => SetsKeepalive(p, n, parse);
    case ReservedLine(ns) => SetsReserved(p, ns, parse);
    case _ =>
  }

  // ---- The run over the file ----

  lemma {:induction false} RunAppend<I, Q>(s: State<I, Q>, a: seq<Line>, b: seq<Line>, rules: Rules<I, Q>)
    ensures Run(s, a + b, rules) == match Run(s, a, rules) case Ok(t) => Run(t, b, rules) case Err(e) => Err(e)
    decreases |a|
  {
    if a == [] {
      assert a + b == b;
    } else {
      assert (a + b)[0] == a[0] && (a + b)[1..] == a[1..] + b;
      if Step(s, a[0], rules).Ok? {
        RunAppend(Step(s, a[0], rules).value, a[1..], b, rules);
      }
    }
  }

  lemma RunOne<I, Q>(s: State<I, Q>, line: Line, rules: Rules<I, Q>)
    ensures Run(s, [line], rules) == Step(s, line, rules)
  {
  }

  lemma OneMoreLine<I, Q>(s: State<I, Q>, front: seq<Line>, line: Line, rules: Rules<I, Q>)
    ensures Run(s, front, rules).Ok? ==> Run(s, front + [line], rules) == Step(Run(s, front, rules).value, line, rules)
  {
    RunAppend(s, front, [line], rules);
    if Run(s, front, rules).Ok? {
      RunOne(Run(s, front, rules).value, line, rules);
    }
  }

  lemma PutOneMore<P>(i: Interface<P>, front: seq<InterfaceLine>, l: InterfaceLine, parse: string -> Option<P>)
    requires LegalSettings(front, parse) && LegalSetting(l, parse)
    ensures LegalSettings(front + [l], parse)
    ensures PutAll(i, front + [l], parse) == Put(PutAll(i, front, parse), l, parse)
    ensures Lines(InterfaceTexts(front + [l])) == Lines(InterfaceTexts(front)) + [Classify(InterfaceText(l))]
  {
    assert (front + [l])[..|front|] == front;
  }

  lemma {:induction false} SettingsRun<P>(s: State<Interface<P>, Peer<P>>, ls: seq<InterfaceLine>,
          parse: string -> Option<P>)
    requires s.section == "interface" && LegalSettings(ls, parse)
    ensures Run(s, Lines(InterfaceTexts(ls)), RulesFor(parse)) == Ok(s.(iface := PutAll(s.iface, ls, parse)))
    decreases |ls|
  {
    if ls == [] {
      assert Lines(InterfaceTexts(ls)) == [];
    } else {
      var front, l := ls[..|ls| - 1], ls[|ls| - 1];
      assert ls == front + [l];
      SettingsRun(s, front, parse);
      PutOneMore(s.iface, front, l, parse);
      OneMoreLine(s, Lines(InterfaceTexts(front)), Classify(InterfaceText(l)), RulesFor(parse));
      SettingStep(s.(iface := PutAll(s.iface, front, parse)), l, parse);
    }
  }

  lemma SettingStep<P>(s: State<Interface<P>, Peer<P>>, l: InterfaceLine, parse: string -> Option<P>)
    requires s.section == "interface" && LegalSetting(l, parse)
    ensures Step(s, Classify(InterfaceText(l)), RulesFor(parse)) == Ok(s.(iface := Put(s.iface, l, parse)))
  {
    SettingIsEntry(l, parse);
    Sets(s.iface, l, parse);
  }

  lemma PutPeerOneMore<P>(p: Peer<P>, front: seq<PeerLine>, l: PeerLine, parse: string -> Option<P>)
    requires LegalLines(front, parse) && LegalLine(l, parse)
    ensures LegalLines(front + [l], parse)
    ensures PutPeerAll(p, front + [l], parse) == PutPeer(PutPeerAll(p, front, parse), l, parse)
    ensures Lines(PeerTexts(front + [l])) == Lines(PeerTexts(front)) + [Classify(PeerText(l))]
  {
    assert (front + [l])[..|front|] == front;
  }

  lemma {:induction false} PeerRun<P>(s: State<Interface<P>, Peer<P>>, ls: seq<PeerLine>, parse: string -> Option<P>)
    requires s.section == "peer" && LegalLines(ls, parse)
    ensures Run(s, Lines(PeerTexts(ls)), RulesFor(parse))
            == Ok(s.(peer := PutPeerAll(s.peer, ls, parse), havePeer := s.havePeer || ls != []))
    decreases |ls|
  {
    if ls == [] {
      assert Lines(PeerTexts(ls)) == [];
    } else {
      var front, l := ls[..|ls| - 1], ls[|ls| - 1];
      assert ls == front + [l];
      PeerRun(s, front, parse);
      PutPeerOneMore(s.peer, front, l, parse);
      OneMoreLine(s, Lines(PeerTexts(front)), Classify(PeerText(l)), RulesFor(parse));
      PeerStep(s.(peer := PutPeerAll(s.peer, front, parse), havePeer := s.havePeer || front != []), l, parse);
    }
  }

  lemma PeerStep<P>(s: State<Interface<P>, Peer<P>>, l: PeerLine, parse: string -> Option<P>)
    requires s.section == "peer" && LegalLine(l, parse)
    ensures Step(s, Classify(PeerText(l)), RulesFor(parse))
            == Ok(s.(peer := PutPeer(s.peer, l, parse), havePeer := true))
  {
    PeerSettingIsEntry(l, parse);
    SetsPeer(s.peer, l, parse);
  }

  /** The state after a section. */
  function AfterSection<P>(s: State<Interface<P>, Peer<P>>, section: Section, parse: string -> Option<P>)
    : State<Interface<P>, Peer<P>>
    requires LegalSection(section, parse)
  {
    var t := Flush(s, RulesFor(parse));
    match section
    case InterfaceSection(ls) => t.(section := "interface", iface := PutAll(t.iface, ls, parse))
    case PeerSection(ls) => t.(section := "peer", peer := PutPeerAll(t.peer, ls, parse), havePeer := ls != [])
    case OtherSection(name, _) => t.(section := Lower(name))
  }

  lemma SectionRun<P>(s: State<Interface<P>, Peer<P>>, section: Section, parse: string -> Option<P>)
    requires LegalSection(section, parse)
    ensures Run(s, Lines(SectionTexts(section)), RulesFor(parse)) == Ok(AfterSection(s, section, parse))
  {
    InterfaceHeader();
    PeerHeader();
    var t := Flush(s, RulesFor(parse));
    match section
    case InterfaceSection(ls) =>
      HeaderRun(s, "[Interface]", "interface", InterfaceTexts(ls), parse);
      SettingsRun(t.(section := "interface"), ls, parse);
    case PeerSection(ls) =>
      HeaderRun(s, "[Peer]", "peer", PeerTexts(ls), parse);
      PeerRun(t.(section := "peer"), ls, parse);
    case OtherSection(name, texts) =>
      HeaderCut(name);
      HeaderRun(s, "[" + name + "]", Lower(name), texts, parse);
      OtherRun(t.(section := Lower(name)), texts, RulesFor(parse));
  }

  lemma OtherTextIsNoHeader(text: string)
    requires OtherText(text)
    ensures !Classify(text).Header?
  {
  }

  lemma {:induction false} OtherRun<I, Q>(s: State<I, Q>, texts: seq<string>, rules: Rules<I, Q>)
    requires s.section != "interface" && s.section != "peer"
    requires forall i :: 0 <= i < |texts| ==> OtherText(texts[i])
    ensures Run(s, Lines(texts), rules) == Ok(s)
    decreases |texts|
  {
    if texts == [] {
      assert Lines(texts) == [];
    } else {
      OtherTextIsNoHeader(texts[0]);
      assert Lines(texts)[1..] == Lines(texts[1..]);
      OtherRun(s, texts[1..], rules);
    }
  }

  lemma HeaderRun<P>(s: State<Interface<P>, Peer<P>>, head: string, name: string, texts: seq<string>,
          parse: string -> Option<P>)
    requires Classify(head) == Header(name)
    ensures Run(s, Lines([head] + texts), RulesFor(parse))
            == Run(Flush(s, RulesFor(parse)).(section := name), Lines(texts), RulesFor(parse))
  {
    LinesSplit([head], texts);
    RunAppend(s, Lines([head]), Lines(texts), RulesFor(parse));
    assert Lines([head]) == [Header(name)];
    RunOne(s, Header(name), RulesFor(parse));
  }

  lemma {:induction false} PutAllSplit<P>(i: Interface<P>, a: seq<InterfaceLine>, b: seq<InterfaceLine>,
          parse: string -> Option<P>)
    requires LegalSettings(a, parse) && LegalSettings(b, parse)
    ensures LegalSettings(a + b, parse)
    ensures PutAll(i, a + b, parse) == PutAll(PutAll(i, a, parse), b, parse)
    decreases |b|
  {
    if b == [] {
      assert a + b == a;
    } else {
      var n := |b| - 1;
      PutAllSplit(i, a, b[..n], parse);
      assert (a + b)[..|a| + n] == a + b[..n] && (a + b)[|a| + n] == b[n];
    }
  }

  function RawPeers<P>(peers: seq<seq<PeerLine>>, parse: string -> Option<P>): (r: seq<Peer<P>>)
    requires AllLegal(peers, parse)
    ensures |r| == |peers|
  {
    seq(|peers|, i requires 0 <= i < |peers| => PutPeerAll(EmptyPeer(), peers[i], parse))
  }

  ghost predicate Waiting<P>(s: State<Interface<P>, Peer<P>>) { !s.havePeer ==> s.peer == EmptyPeer() }

  /** From a state the lines are read without an error, with this interface and these peers in the end. */
  ghost predicate Reads<P>(s: State<Interface<P>, Peer<P>>, lines: seq<Line>, iface: Interface<P>, peers: seq<Peer<P>>,
          parse: string -> Option<P>)
  {
    var r := Run(s, lines, RulesFor(parse));
    r.Ok? && Flush(r.value, RulesFor(parse)).iface == iface && Flush(r.value, RulesFor(parse)).peers == peers
  }

  lemma ReadsOn<P>(s: State<Interface<P>, Peer<P>>, a: seq<Line>, t: State<Interface<P>, Peer<P>>, b: seq<Line>,
          iface: Interface<P>, peers: seq<Peer<P>>, parse: string -> Option<P>)
    requires Run(s, a, RulesFor(parse)) == Ok(t) && Reads(t, b, iface, peers, parse)
    ensures Reads(s, a + b, iface, peers, parse)
  {
    RunAppend(s, a, b, RulesFor(parse));
  }

  lemma {:induction false} FileRun<P>(s: State<Interface<P>, Peer<P>>, conf: seq<Section>, parse: string -> Option<P>)
    requires LegalFile(conf, parse) && Waiting(s)
    ensures LegalSettings(SettingsOf(conf), parse) && AllLegal(PeersOf(conf), parse)
    ensures Reads(s, Lines(FileLines(conf)), PutAll(s.iface, SettingsOf(conf), parse),
                  Flush(s, RulesFor(parse)).peers + RawPeers(PeersOf(conf), parse), parse)
    decreases |conf|
  {
    LegalParts(conf, parse);
    if conf == [] {
      assert Lines(FileLines(conf)) == [];
    } else {
      assert LegalSection(conf[0], parse);
      LegalParts(conf[1..], parse);
      FileRun(AfterSection(s, conf[0], parse), conf[1..], parse);
      FirstSection(s, conf[0], conf[1..], parse);
      assert conf == [conf[0]] + conf[1..];
    }
  }

  lemma SettingsStep(section: Section, rest: seq<Section>)
    ensures SettingsOf([section] + rest)
            == (if section.InterfaceSection? then section.settings else []) + SettingsOf(rest)
    ensures PeersOf([section] + rest) == PeersIn(section) + PeersOf(rest)
    ensures FileLines([section] + rest) == SectionTexts(section) + FileLines(rest)
  {
    assert ([section] + rest)[1..] == rest;
  }

  lemma FirstSection<P>(s: State<Interface<P>, Peer<P>>, section: Section, rest: seq<Section>,
          parse: string -> Option<P>)
    requires LegalSection(section, parse) && Waiting(s)
    requires LegalSettings(SettingsOf(rest), parse) && LegalSettings(SettingsOf([section] + rest), parse)
    requires AllLegal(PeersOf(rest), parse) && AllLegal(PeersOf([section] + rest), parse)
    requires var t := AfterSection(s, section, parse);
             Reads(t, Lines(FileLines(rest)), PutAll(t.iface, SettingsOf(rest), parse),
                   Flush(t, RulesFor(parse)).peers + RawPeers(PeersOf(rest), parse), parse)
    ensures Reads(s, Lines(FileLines([section] + rest)), PutAll(s.iface, SettingsOf([section] + rest), parse),
                  Flush(s, RulesFor(parse)).peers + RawPeers(PeersOf([section] + rest), parse), parse)
  {
    var t := AfterSection(s, section, parse);
    var iface, peers := PutAll(t.iface, SettingsOf(rest), parse), Flush(t, RulesFor(parse)).peers;
    SettingsStep(section, rest);
    LinesSplit(SectionTexts(section), FileLines(rest));
    SectionRun(s, section, parse);
    ReadsOn(s, Lines(SectionTexts(section)), t, Lines(FileLines(rest)), iface, peers + RawPeers(PeersOf(rest), parse),
            parse);
    SettingsAfter(s, section, SettingsOf(rest), parse);
    PeersAfter(s, section, PeersOf(rest), parse);
  }

  lemma SettingsAfter<P>(s: State<Interface<P>, Peer<P>>, section: Section, rest: seq<InterfaceLine>,
          parse: string -> Option<P>)
    requires LegalSection(section, parse) && LegalSettings(rest, parse)
    requires LegalSettings((if section.InterfaceSection? then section.settings else []) + rest, parse)
    ensures PutAll(AfterSection(s, section, parse).iface, rest, parse)
            == PutAll(s.iface, (if section.InterfaceSection? then section.settings else []) + rest, parse)
  {
    FileSettings(s.iface, section, rest, parse);
  }

  lemma PeersAfter<P>(s: State<Interface<P>, Peer<P>>, section: Section, rest: seq<seq<PeerLine>>,
          parse: string -> Option<P>)
    requires LegalSection(section, parse) && Waiting(s)
    requires AllLegal(rest, parse) && AllLegal(PeersIn(section) + rest, parse)
    ensures Flush(AfterSection(s, section, parse), RulesFor(parse)).peers + RawPeers(rest, parse)
            == Flush(s, RulesFor(parse)).peers + RawPeers(PeersIn(section) + rest, parse)
  {
    ClosedSection(s, section, parse);
    RawPeersSplit(PeersIn(section), rest, parse);
  }

  lemma FileSettings<P>(i: Interface<P>, section: Section, rest: seq<InterfaceLine>, parse: string -> Option<P>)
    requires LegalSection(section, parse) && LegalSettings(rest, parse)
    requires LegalSettings((if section.InterfaceSection? then section.settings else []) + rest, parse)
    ensures PutAll(if section.InterfaceSection? then PutAll(i, section.settings, parse) else i, rest, parse)
            == PutAll(i, (if section.InterfaceSection? then section.settings else []) + rest, parse)
  {
    match section
    case InterfaceSection(ls) => PutAllSplit(i, ls, rest, parse);
    case _ => assert [] + rest == rest;
  }

  lemma RawPeersSplit<P>(a: seq<seq<PeerLine>>, b: seq<seq<PeerLine>>, parse: string -> Option<P>)
    requires AllLegal(a, parse) && AllLegal(b, parse) && AllLegal(a + b, parse)
    ensures RawPeers(a + b, parse) == RawPeers(a, parse) + RawPeers(b, parse)
  {
  }

  lemma ClosedSection<P>(s: State<Interface<P>, Peer<P>>, section: Section, parse: string -> Option<P>)
    requires Waiting(s) && LegalSection(section, parse)
    ensures AllLegal(PeersIn(section), parse) && Waiting(AfterSection(s, section, parse))
    ensures Flush(AfterSection(s, section, parse), RulesFor(parse)).peers
            == Flush(s, RulesFor(parse)).peers + RawPeers(PeersIn(section), parse)
  {
    assert Flush(s, RulesFor(parse)).peer == EmptyPeer();
    match section
    case InterfaceSection(ls) =>
    case PeerSection(ls) =>
      if ls != [] {
        assert RawPeers([ls], parse) == [PutPeerAll(EmptyPeer(), ls, parse)];
      }
    case OtherSection(_, _) =>
  }

  // ---- Field by field ----

  lemma LastStep<L, V>(front: seq<L>, l: L, pick: L -> Option<V>, none: V)
    ensures Last(front + [l], pick, none) == match pick(l) case Some(v) => v case None => Last(front, pick, none)
  {
    assert (front + [l])[..|front|] == front;
  }

  lemma GatheredStep<L, V>(front: seq<L>, l: L, pick: L -> seq<V>)
    ensures Gathered(front + [l], pick) == Gathered(front, pick) + pick(l)
  {
    assert (front + [l])[..|front|] == front;
  }

  lemma AddressesOfTwo<P>(a: seq<string>, b: seq<string>, parse: string -> Option<P>)
    requires AwgLink.AreAddresses(a, parse) && AwgLink.AreAddresses(b, parse)
    ensures AwgLink.AreAddresses(a + b, parse)
    ensures AwgLink.Addresses(a + b, parse) == AwgLink.Addresses(a, parse) + AwgLink.Addresses(b, parse)
  {
  }

  lemma {:induction false} ScalarsLast<P>(ls: seq<InterfaceLine>, parse: string -> Option<P>)
    requires LegalSettings(ls, parse)
    ensures var i := PutAll(EmptyInterface(), ls, parse);
            i.privateKey == Last(ls, KeyIn, "") && i.mtu == Last(ls, MtuIn, 0)
    decreases |ls|
  {
    if ls != [] {
      var front, l := ls[..|ls| - 1], ls[|ls| - 1];
      assert ls == front + [l];
      ScalarsLast(front, parse);
      PutOneMore(EmptyInterface(), front, l, parse);
      LastStep(front, l, KeyIn, "");
      LastStep(front, l, MtuIn, 0);
    }
  }

  lemma {:induction false} AddressesGathered<P>(ls: seq<InterfaceLine>, parse: string -> Option<P>)
    requires LegalSettings(ls, parse)
    ensures AwgLink.AreAddresses(Gathered(ls, AddressesIn), parse)
    ensures PutAll(EmptyInterface(), ls, parse).addresses
            == AwgLink.Addresses(Gathered(ls, AddressesIn), parse)
    decreases |ls|
  {
    GatheredAddresses(ls, parse);
    if ls != [] {
      var front, l := ls[..|ls| - 1], ls[|ls| - 1];
      assert ls == front + [l];
      AddressesGathered(front, parse);
      PutOneMore(EmptyInterface(), front, l, parse);
      GatheredStep(front, l, AddressesIn);
      AddressesOfTwo(Gathered(front, AddressesIn), AddressesIn(l), parse);
    }
  }

  lemma {:induction false} NumberLast<P>(ls: seq<InterfaceLine>, k: string, parse: string -> Option<P>)
    requires LegalSettings(ls, parse) && k in NUMBER_KEYS
    ensures var numbers := PutAll(EmptyInterface(), ls, parse).obfuscation.numbers;
            k in numbers && numbers[k] == Last(ls, NumberIn(k), 0)
    decreases |ls|
  {
    if ls != [] {
      var front, l := ls[..|ls| - 1], ls[|ls| - 1];
      assert ls == front + [l];
      NumberLast(front, k, parse);
      PutOneMore(EmptyInterface(), front, l, parse);
      LastStep(front, l, NumberIn(k), 0);
    }
  }

  lemma {:induction false} TextLast<P>(ls: seq<InterfaceLine>, k: string, parse: string -> Option<P>)
    requires LegalSettings(ls, parse) && k in TEXT_KEYS
    ensures var texts := PutAll(EmptyInterface(), ls, parse).obfuscation.texts;
            k in texts && texts[k] == Last(ls, TextIn(k), "")
    decreases |ls|
  {
    if ls != [] {
      var front, l := ls[..|ls| - 1], ls[|ls| - 1];
      assert ls == front + [l];
      TextLast(front, k, parse);
      PutOneMore(EmptyInterface(), front, l, parse);
      LastStep(front, l, TextIn(k), "");
    }
  }

  lemma {:induction false} StaysTotal<P>(ls: seq<InterfaceLine>, parse: string -> Option<P>)
    requires LegalSettings(ls, parse)
    ensures Total(PutAll(EmptyInterface(), ls, parse).obfuscation)
    decreases |ls|
  {
    if ls != [] {
      StaysTotal(ls[..|ls| - 1], parse);
      assert LegalSetting(ls[|ls| - 1], parse);
    }
  }

  lemma ClampDropsNegatives(n: int, k: string)
    ensures Clamp(n, Minimum(k)) == NotNegative(n)
  {
  }

  lemma ObfuscationIsRead<P>(ls: seq<InterfaceLine>, parse: string -> Option<P>)
    requires LegalSettings(ls, parse)
    ensures var o := PutAll(EmptyInterface(), ls, parse).obfuscation;
            Total(o) && o.(numbers := Clamped(o.numbers)) == ObfuscationOf(ls)
  {
    var o := PutAll(EmptyInterface(), ls, parse).obfuscation;
    StaysTotal(ls, parse);
    forall k | k in NUMBER_KEYS
      ensures Clamped(o.numbers)[k] == ObfuscationOf(ls).numbers[k]
    {
      NumberLast(ls, k, parse);
      ClampDropsNegatives(o.numbers[k], k);
    }
    forall k | k in TEXT_KEYS
      ensures o.texts[k] == ObfuscationOf(ls).texts[k]
    {
      TextLast(ls, k, parse);
    }
  }

  lemma {:induction false} PeerScalarsLast<P>(ls: seq<PeerLine>, parse: string -> Option<P>)
    requires LegalLines(ls, parse)
    ensures var p := PutPeerAll(EmptyPeer(), ls, parse);
            && p.publicKey == Last(ls, PublicKeyIn, "") && p.presharedKey == Last(ls, PresharedKeyIn, "")
            && p.address == Last(ls, HostIn, "") && p.port == Last(ls, PortIn, 0)
            && p.keepalive == Last(ls, KeepaliveIn, 0)
    decreases |ls|
  {
    if ls != [] {
      var front, l := ls[..|ls| - 1], ls[|ls| - 1];
      assert ls == front + [l];
      PeerScalarsLast(front, parse);
      PutPeerOneMore(EmptyPeer(), front, l, parse);
      LastStep(front, l, PublicKeyIn, "");
      LastStep(front, l, PresharedKeyIn, "");
      LastStep(front, l, HostIn, "");
      LastStep(front, l, PortIn, 0);
      LastStep(front, l, KeepaliveIn, 0);
    }
  }

  lemma NatsOfTwo(a: seq<int>, b: seq<int>)
    requires AwgLink.AreBytes(a) && AwgLink.AreBytes(b)
    ensures AwgLink.AreBytes(a + b) && AwgLink.Nats(a + b) == AwgLink.Nats(a) + AwgLink.Nats(b)
  {
  }

  lemma {:induction false} PeerListsGathered<P>(ls: seq<PeerLine>, parse: string -> Option<P>)
    requires LegalLines(ls, parse)
    ensures AwgLink.AreAddresses(Gathered(ls, AllowedIn), parse) && AwgLink.AreBytes(Gathered(ls, ReservedIn))
    ensures PutPeerAll(EmptyPeer(), ls, parse).allowedIPs == AwgLink.Addresses(Gathered(ls, AllowedIn), parse)
    ensures PutPeerAll(EmptyPeer(), ls, parse).reserved == AwgLink.Nats(Gathered(ls, ReservedIn))
    decreases |ls|
  {
    GatheredAllowed(ls, parse);
    if ls != [] {
      var front, l := ls[..|ls| - 1], ls[|ls| - 1];
      assert ls == front + [l];
      PeerListsGathered(front, parse);
      PutPeerOneMore(EmptyPeer(), front, l, parse);
      GatheredStep(front, l, AllowedIn);
      GatheredStep(front, l, ReservedIn);
      AddressesOfTwo(Gathered(front, AllowedIn), AllowedIn(l), parse);
      NatsOfTwo(Gathered(front, ReservedIn), ReservedIn(l));
    }
  }

  /** The endpoint line gives both the host and the port. */
  lemma {:induction false} HostAndPortComeTogether<P>(ls: seq<PeerLine>, parse: string -> Option<P>)
    requires LegalLines(ls, parse)
    ensures Last(ls, HostIn, "") == "" <==> Last(ls, PortIn, 0) == 0
    decreases |ls|
  {
    if ls != [] {
      HostAndPortComeTogether(ls[..|ls| - 1], parse);
      assert LegalLine(ls[|ls| - 1], parse);
    }
  }

  lemma PeerIsFinished<P>(ls: seq<PeerLine>, parse: string -> Option<P>, everything: seq<P>)
    requires LegalLines(ls, parse)
    ensures FinishPeer(PutPeerAll(EmptyPeer(), ls, parse), everything)
            == match PeerFault(ls) case Some(e) => Err(e) case None => Ok(PeerMeant(ls, parse, everything))
  {
    PeerScalarsLast(ls, parse);
    PeerListsGathered(ls, parse);
    HostAndPortComeTogether(ls, parse);
  }

  lemma FinishPeersStep<P>(p: Peer<P>, rest: seq<Peer<P>>, everything: seq<P>)
    ensures FinishPeers([p] + rest, everything)
            == match FinishPeer(p, everything)
               case Err(e) => Err(e)
               case Ok(q) =>
                 (match FinishPeers(rest, everything) case Ok(qs) => Ok([q] + qs) case Err(e) => Err(e))
  {
    assert ([p] + rest)[1..] == rest;
  }

  lemma RawPeersStep<P>(first: seq<PeerLine>, rest: seq<seq<PeerLine>>, parse: string -> Option<P>)
    requires LegalLines(first, parse) && AllLegal(rest, parse)
    ensures AllLegal([first] + rest, parse)
    ensures RawPeers([first] + rest, parse) == [PutPeerAll(EmptyPeer(), first, parse)] + RawPeers(rest, parse)
  {
  }

  lemma FirstFaultStep(first: seq<PeerLine>, rest: seq<seq<PeerLine>>)
    ensures FirstPeerFault([first] + rest)
            == if PeerFault(first).Some? then PeerFault(first) else FirstPeerFault(rest)
  {
    assert ([first] + rest)[1..] == rest;
  }

  lemma {:induction false} PeersAreFinished<P>(peers: seq<seq<PeerLine>>, parse: string -> Option<P>,
          everything: seq<P>)
    requires AllLegal(peers, parse)
    ensures FinishPeers(RawPeers(peers, parse), everything)
            == match FirstPeerFault(peers)
               case Some(e) => Err(e)
               case None => (NoFirstFault(peers); Ok(PeersMeant(peers, parse, everything)))
    decreases |peers|
  {
    if peers != [] {
      var first, rest := peers[0], peers[1..];
      assert peers == [first] + rest;
      RawPeersStep(first, rest, parse);
      FirstFaultStep(first, rest);
      FinishPeersStep(PutPeerAll(EmptyPeer(), first, parse), RawPeers(rest, parse), everything);
      PeerIsFinished(first, parse, everything);
      PeersAreFinished(rest, parse, everything);
    }
  }

  // ---- The whole file ----

  /** The verdict on an interface and its peers. */
  lemma FinishCases<P>(i: Interface<P>, o: Obfuscation, raw: seq<Peer<P>>, everything: seq<P>)
    requires Total(i.obfuscation) && o == i.obfuscation.(numbers := Clamped(i.obfuscation.numbers)) && Total(o)
    ensures i.privateKey == "" ==> Finish(i, raw, everything) == Err(MissingPrivateKey)
    ensures i.privateKey != "" && Keys.NormalizeWgKey(i.privateKey).None? ==>
              Finish(i, raw, everything) == Err(BadKey)
    ensures i.privateKey != "" && Keys.NormalizeWgKey(i.privateKey).Some? ==>
              Finish(i, raw, everything)
              == if raw == [] then Err(MissingEndpoint)
                 else
                   match FinishPeers(raw, everything)
                   case Err(e) => Err(e)
                   case Ok(peers) =>
                     if !HeadersOk(o) then Err(BadHeader)
                     else if !SpecsOk(o) then Err(BadSpec)
                     else
                       Ok(Kind(Keys.NormalizeWgKey(i.privateKey).value, i.addresses, i.mtu, o, peers))
  {
  }

  lemma FileIsFinished<P>(conf: seq<Section>, i: Interface<P>, parse: string -> Option<P>, everything: seq<P>)
    requires LegalFile(conf, parse)
    requires LegalSettings(SettingsOf(conf), parse) && AllLegal(PeersOf(conf), parse)
    requires i == PutAll(EmptyInterface(), SettingsOf(conf), parse)
    ensures Total(i.obfuscation)
    ensures Finish(i, RawPeers(PeersOf(conf), parse), everything)
            == match Fault(conf) case Some(e) => Err(e) case None => Ok(Meant(conf, parse, everything))
  {
    ScalarsLast(SettingsOf(conf), parse);
    AddressesGathered(SettingsOf(conf), parse);
    ObfuscationIsRead(SettingsOf(conf), parse);
    PeersAreFinished(PeersOf(conf), parse, everything);
    FinishCases(i, ObfuscationOf(SettingsOf(conf)), RawPeers(PeersOf(conf), parse), everything);
  }

  lemma InterfaceTextIsALine<P>(l: InterfaceLine, parse: string -> Option<P>)
    requires LegalSetting(l, parse)
    ensures '\n' !in InterfaceText(l)
  {
    SettingIsValue(l, parse);
    SettingName(l, parse);
    LineHasNoBreak(SettingOf(l).key, SettingOf(l).value);
  }

  lemma PeerTextIsALine<P>(l: PeerLine, parse: string -> Option<P>)
    requires LegalLine(l, parse)
    ensures '\n' !in PeerText(l)
  {
    PeerSettingIsValue(l, parse);
    WgNames(PeerSettingOf(l).key);
    LineHasNoBreak(PeerSettingOf(l).key, PeerSettingOf(l).value);
  }

  lemma LineHasNoBreak(k: string, v: string)
    requires KeyText(k) && IsValue(v)
    ensures '\n' !in KeyValue(k, v)
  {
    assert forall i :: 0 <= i < |k| ==> KeyChar(k[i]);
    assert !KeyChar('\n');
  }

  lemma SectionIsLines<P>(section: Section, parse: string -> Option<P>)
    requires LegalSection(section, parse)
    ensures Free(SectionTexts(section), '\n')
  {
    match section
    case InterfaceSection(ls) =>
      forall i | 0 <= i < |ls|
        ensures '\n' !in InterfaceTexts(ls)[i]
      {
        InterfaceTextIsALine(ls[i], parse);
      }
    case PeerSection(ls) =>
      forall i | 0 <= i < |ls|
        ensures '\n' !in PeerTexts(ls)[i]
      {
        PeerTextIsALine(ls[i], parse);
      }
    case OtherSection(_, _) =>
  }

  lemma {:induction false} FileIsLines<P>(conf: seq<Section>, parse: string -> Option<P>)
    requires LegalFile(conf, parse)
    ensures Free(FileLines(conf), '\n') && (conf != [] ==> FileLines(conf) != [])
    decreases |conf|
  {
    if conf != [] {
      SectionIsLines(conf[0], parse);
      FileIsLines(conf[1..], parse);
    }
  }

  lemma IniReads<P>(content: string, iface: Interface<P>, peers: seq<Peer<P>>, parse: string -> Option<P>,
          everything: seq<P>)
    requires Reads(Start(), Lines(Split(content, '\n')), iface, peers, parse)
    ensures Total(iface.obfuscation) && IniOf(content, parse, everything) == Finish(iface, peers, everything)
  {
    RunStaysTotal(Start(), Lines(Split(content, '\n')), parse);
  }

  lemma EmptyFileReads<P>(parse: string -> Option<P>)
    ensures Reads(Start(), Lines(Split("", '\n')), EmptyInterface(), [], parse)
  {
    SplitAt("", '\n', "");
    assert Lines([""]) == [Nothing];
    RunOne(Start<P>(), Nothing, RulesFor(parse));
  }

  lemma TextReads<P>(conf: seq<Section>, parse: string -> Option<P>)
    requires LegalFile(conf, parse)
    ensures LegalSettings(SettingsOf(conf), parse) && AllLegal(PeersOf(conf), parse)
    ensures Reads(Start(), Lines(Split(FileText(conf), '\n')), PutAll(EmptyInterface(), SettingsOf(conf), parse),
                  RawPeers(PeersOf(conf), parse), parse)
  {
    LegalParts(conf, parse);
    if conf == [] {
      EmptyFileReads(parse);
    } else {
      FileIsLines(conf, parse);
      SplitJoin(FileLines(conf), '\n');
      FileRun(Start(), conf, parse);
      assert [] + RawPeers(PeersOf(conf), parse) == RawPeers(PeersOf(conf), parse);
    }
  }

  /** Any file of [Interface] and [Peer] sections is read as what it says: of the lines with the
      same key the last one counts, lists go on from line to line, a peer is a section, and the
      first fault, if there is one, is the answer. */
  lemma FileIsRead<P>(conf: seq<Section>, parse: string -> Option<P>, everything: seq<P>)
    requires LegalFile(conf, parse)
    ensures IniOf(FileText(conf), parse, everything)
            == match Fault(conf) case Some(e) => Err(e) case None => Ok(Meant(conf, parse, everything))
  {
    TextReads(conf, parse);
    var i := PutAll(EmptyInterface(), SettingsOf(conf), parse);
    IniReads(FileText(conf), i, RawPeers(PeersOf(conf), parse), parse, everything);
    FileIsFinished(conf, i, parse, everything);
  }
}
