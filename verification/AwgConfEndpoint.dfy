/**
 A WireGuard or AmneziaWG endpoint as a wg-quick file, in any of the ways that a file can say it,
 read back by AWGSingboxTxt (xray2sing/ray2sing/awg.go).
 */
module AwgConfEndpoint {
  import opened Common
  import opened GoStrings
  import opened Awg
  import opened AwgIni
  import opened AwgConf
  import AwgLink
  import Base64
  import Keys
  import Urls

  // ---- A file for an endpoint ----

  ghost predicate ArePeers<P>(peers: seq<AwgLink.SingboxPeer>, parse: string -> Option<P>) {
    forall i :: 0 <= i < |peers| ==> AwgLink.ValidPeer(peers[i], parse) && AreItems(peers[i].allowedIPs, parse)
  }

  ghost predicate ValidEndpoint<P>(ep: AwgLink.SingboxEndpoint, parse: string -> Option<P>) {
    && AwgLink.IsKey(ep.privateKey) && AreItems(ep.address, parse) && ep.mtu < 0x1_0000_0000
    && AwgLink.ValidObfuscation(ep.obfuscation) && ep.peers != [] && ArePeers(ep.peers, parse)
    && (forall k :: k in TEXT_KEYS ==> IsValue(ep.obfuscation.texts[k]))
  }

  predicate TrueSetting(l: InterfaceLine, ep: AwgLink.SingboxEndpoint) {
    match l
    case KeyLine(t) => t == ep.privateKey
    case MtuLine(n) => n == ep.mtu
    case NumberLine(k, n) => k in ep.obfuscation.numbers && n == ep.obfuscation.numbers[k]
    case TextLine(k, t) => k in ep.obfuscation.texts && t == ep.obfuscation.texts[k]
    case AddressLine(_) => true
    case ForeignSetting(_, _) => true
  }

  predicate TruePeerLine(l: PeerLine, p: AwgLink.SingboxPeer) {
    match l
    case PublicKeyLine(t) => t == p.publicKey
    case PresharedKeyLine(t) => t == AwgLink.Psk(p)
    case EndpointLine(h, port) => h == p.address && port == p.port
    case KeepaliveLine(n) => n == p.keepalive
    case AllowedLine(_) => true
    case ReservedLine(_) => true
    case ForeignLine(_, _) => true
  }

  predicate Gives<L, V>(ls: seq<L>, pick: L -> Option<V>) { exists i :: 0 <= i < |ls| && pick(ls[i]).Some? }

  ghost predicate NumbersGiven(ls: seq<InterfaceLine>, numbers: map<string, int>) {
    forall k :: k in NUMBER_KEYS ==> k in numbers && (numbers[k] == 0 || Gives(ls, NumberIn(k)))
  }

  ghost predicate TextsGiven(ls: seq<InterfaceLine>, texts: map<string, string>) {
    forall k :: k in TEXT_KEYS ==> k in texts && (texts[k] == "" || Gives(ls, TextIn(k)))
  }

  predicate TrueSettings(ls: seq<InterfaceLine>, ep: AwgLink.SingboxEndpoint) {
    forall i :: 0 <= i < |ls| ==> TrueSetting(ls[i], ep)
  }

  /** The lines are true of the endpoint, and whatever it has they give. */
  ghost predicate SettingsSay(ls: seq<InterfaceLine>, ep: AwgLink.SingboxEndpoint) {
    && TrueSettings(ls, ep)
    && Gathered(ls, AddressesIn) == ep.address && Gives(ls, KeyIn) && (ep.mtu == 0 || Gives(ls, MtuIn))
    && NumbersGiven(ls, ep.obfuscation.numbers) && TextsGiven(ls, ep.obfuscation.texts)
  }

  ghost predicate PeerSays(ls: seq<PeerLine>, p: AwgLink.SingboxPeer) {
    && (forall i :: 0 <= i < |ls| ==> TruePeerLine(ls[i], p))
    && Gathered(ls, AllowedIn) == p.allowedIPs && Gathered(ls, ReservedIn) == p.reserved
    && Gives(ls, PublicKeyIn) && Gives(ls, HostIn) && (p.keepalive == 0 || Gives(ls, KeepaliveIn))
    && (AwgLink.Psk(p) == "" || Gives(ls, PresharedKeyIn))
  }

  ghost predicate AllSay(peers: seq<seq<PeerLine>>, ps: seq<AwgLink.SingboxPeer>) {
    |peers| == |ps| && forall i :: 0 <= i < |ps| ==> PeerSays(peers[i], ps[i])
  }

  ghost predicate Says(conf: seq<Section>, ep: AwgLink.SingboxEndpoint) {
    SettingsSay(SettingsOf(conf), ep) && AllSay(PeersOf(conf), ep.peers)
  }

  /** The endpoint in the parser's terms. */
  ghost function EndpointMeant<P>(ep: AwgLink.SingboxEndpoint, parse: string -> Option<P>, everything: seq<P>)
    : Endpoint<P>
    requires ValidEndpoint(ep, parse)
  {
    Kind(ep.privateKey, AwgLink.Addresses(ep.address, parse), ep.mtu, ep.obfuscation,
         MeantPeers(ep.peers, parse, everything))
  }

  ghost function MeantPeers<P>(peers: seq<AwgLink.SingboxPeer>, parse: string -> Option<P>, everything: seq<P>)
    : (r: seq<Peer<P>>)
    requires ArePeers(peers, parse)
    ensures |r| == |peers|
  {
    if peers == [] then []
    else [AwgLink.MeantPeer(peers[0], parse, everything)] + MeantPeers(peers[1..], parse, everything)
  }

  /** What every line that gives a value gives, if one does. */
  lemma {:induction false} LastIs<L, V>(ls: seq<L>, pick: L -> Option<V>, none: V, v: V)
    requires forall i :: 0 <= i < |ls| && pick(ls[i]).Some? ==> pick(ls[i]).value == v
    requires v == none || Gives(ls, pick)
    ensures Last(ls, pick, none) == v
    decreases |ls|
  {
    if ls != [] && pick(ls[|ls| - 1]).None? {
      LastIs(ls[..|ls| - 1], pick, none, v);
    }
  }

  lemma LegalNumber(o: Obfuscation, k: string)
    requires AwgLink.ValidObfuscation(o) && k in NUMBER_KEYS
    ensures NotNegative(o.numbers[k]) == o.numbers[k]
  {
  }

  lemma NumberIsSaid(ls: seq<InterfaceLine>, ep: AwgLink.SingboxEndpoint, k: string)
    requires TrueSettings(ls, ep) && k in ep.obfuscation.numbers
    requires ep.obfuscation.numbers[k] == 0 || Gives(ls, NumberIn(k))
    ensures Last(ls, NumberIn(k), 0) == ep.obfuscation.numbers[k]
  {
    LastIs(ls, NumberIn(k), 0, ep.obfuscation.numbers[k]);
  }

  lemma TextIsSaid(ls: seq<InterfaceLine>, ep: AwgLink.SingboxEndpoint, k: string)
    requires TrueSettings(ls, ep) && k in ep.obfuscation.texts
    requires ep.obfuscation.texts[k] == "" || Gives(ls, TextIn(k))
    ensures Last(ls, TextIn(k), "") == ep.obfuscation.texts[k]
  {
    LastIs(ls, TextIn(k), "", ep.obfuscation.texts[k]);
  }

  lemma SameNumbers(ls: seq<InterfaceLine>, numbers: map<string, int>)
    requires numbers.Keys == NUMBER_KEYS
    requires forall k :: k in NUMBER_KEYS ==> NotNegative(Last(ls, NumberIn(k), 0)) == numbers[k]
    ensures ObfuscationOf(ls).numbers == numbers
  {
  }

  lemma NumbersAreSaid(ls: seq<InterfaceLine>, ep: AwgLink.SingboxEndpoint)
    requires AwgLink.ValidObfuscation(ep.obfuscation) && TrueSettings(ls, ep)
    requires NumbersGiven(ls, ep.obfuscation.numbers)
    ensures ObfuscationOf(ls).numbers == ep.obfuscation.numbers
  {
    var numbers := ep.obfuscation.numbers;
    forall k | k in NUMBER_KEYS
      ensures NotNegative(Last(ls, NumberIn(k), 0)) == numbers[k]
    {
      NumberIsSaid(ls, ep, k);
      LegalNumber(ep.obfuscation, k);
    }
    SameNumbers(ls, numbers);
  }

  lemma TextsAreSaid(ls: seq<InterfaceLine>, ep: AwgLink.SingboxEndpoint)
    requires Total(ep.obfuscation) && TrueSettings(ls, ep) && TextsGiven(ls, ep.obfuscation.texts)
    ensures ObfuscationOf(ls).texts == ep.obfuscation.texts
  {
    forall k | k in TEXT_KEYS
      ensures ObfuscationOf(ls).texts[k] == ep.obfuscation.texts[k]
    {
      TextIsSaid(ls, ep, k);
    }
  }

  lemma SettingsAreSaid(ls: seq<InterfaceLine>, ep: AwgLink.SingboxEndpoint)
    requires SettingsSay(ls, ep)
    ensures Last(ls, KeyIn, "") == ep.privateKey && Last(ls, MtuIn, 0) == ep.mtu
  {
    LastIs(ls, KeyIn, "", ep.privateKey);
    LastIs(ls, MtuIn, 0, ep.mtu);
  }

  lemma PeerIsSaid<P>(ls: seq<PeerLine>, p: AwgLink.SingboxPeer, parse: string -> Option<P>)
    requires LegalLines(ls, parse) && PeerSays(ls, p)
    ensures Last(ls, HostIn, "") == p.address && Last(ls, PortIn, 0) == p.port
    ensures Last(ls, PublicKeyIn, "") == p.publicKey && Last(ls, PresharedKeyIn, "") == AwgLink.Psk(p)
    ensures Last(ls, KeepaliveIn, 0) == p.keepalive
  {
    LastIs(ls, HostIn, "", p.address);
    GivesPort(ls);
    LastIs(ls, PortIn, 0, p.port);
    LastIs(ls, PublicKeyIn, "", p.publicKey);
    LastIs(ls, PresharedKeyIn, "", AwgLink.Psk(p));
    LastIs(ls, KeepaliveIn, 0, p.keepalive);
  }

  lemma GivesPort(ls: seq<PeerLine>)
    requires Gives(ls, HostIn)
    ensures Gives(ls, PortIn)
  {
    var i :| 0 <= i < |ls| && HostIn(ls[i]).Some?;
    assert PortIn(ls[i]).Some?;
  }

  lemma PeerIsMeant<P>(ls: seq<PeerLine>, p: AwgLink.SingboxPeer, parse: string -> Option<P>, everything: seq<P>)
    requires LegalLines(ls, parse) && PeerSays(ls, p) && AwgLink.ValidPeer(p, parse)
    ensures PeerFault(ls) == None && PeerMeant(ls, parse, everything) == AwgLink.MeantPeer(p, parse, everything)
  {
    PeerIsSaid(ls, p, parse);
    AwgLink.HostIsBytes(p.address);
    AwgLink.KeyFacts(p.publicKey);
    AwgLink.PskFacts(AwgLink.Psk(p));
  }

  lemma AllButTheFirst<P>(peers: seq<seq<PeerLine>>, ps: seq<AwgLink.SingboxPeer>, parse: string -> Option<P>)
    requires AllLegal(peers, parse) && ArePeers(ps, parse) && AllSay(peers, ps) && peers != []
    ensures AllLegal(peers[1..], parse) && ArePeers(ps[1..], parse) && AllSay(peers[1..], ps[1..])
  {
    forall i | 0 <= i < |ps| - 1
      ensures PeerSays(peers[1..][i], ps[1..][i])
    {
      assert PeerSays(peers[i + 1], ps[i + 1]);
    }
  }

  lemma {:induction false} PeersAreMeant<P>(peers: seq<seq<PeerLine>>, ps: seq<AwgLink.SingboxPeer>,
          parse: string -> Option<P>, everything: seq<P>)
    requires AllLegal(peers, parse) && ArePeers(ps, parse)
    requires AllSay(peers, ps)
    ensures NoFaults(peers)
    ensures PeersMeant(peers, parse, everything) == MeantPeers(ps, parse, everything)
    decreases |peers|
  {
    if peers != [] {
      assert PeerSays(peers[0], ps[0]);
      PeerIsMeant(peers[0], ps[0], parse, everything);
      AllButTheFirst(peers, ps, parse);
      PeersAreMeant(peers[1..], ps[1..], parse, everything);
      NoFaultsTogether(peers);
    }
  }

  lemma {:induction false} NoPeerFault(peers: seq<seq<PeerLine>>)
    requires NoFaults(peers)
    ensures FirstPeerFault(peers) == None
  {
    if peers != [] {
      NoPeerFault(peers[1..]);
    }
  }

  lemma SettingsAreMeant(ls: seq<InterfaceLine>, ep: AwgLink.SingboxEndpoint)
    requires AwgLink.ValidObfuscation(ep.obfuscation) && SettingsSay(ls, ep)
    ensures Last(ls, KeyIn, "") == ep.privateKey && Last(ls, MtuIn, 0) == ep.mtu
    ensures ObfuscationOf(ls) == ep.obfuscation && Gathered(ls, AddressesIn) == ep.address
  {
    SettingsAreSaid(ls, ep);
    NumbersAreSaid(ls, ep);
    TextsAreSaid(ls, ep);
  }

  lemma NothingIsWrong(conf: seq<Section>, key: string, o: Obfuscation)
    requires Last(SettingsOf(conf), KeyIn, "") == key && AwgLink.IsKey(key)
    requires ObfuscationOf(SettingsOf(conf)) == o && Total(o) && HeadersOk(o) && SpecsOk(o)
    requires PeersOf(conf) != [] && NoFaults(PeersOf(conf))
    ensures Fault(conf) == None && Keys.NormalizeWgKey(key) == Some(key)
  {
    NoPeerFault(PeersOf(conf));
    AwgLink.KeyFacts(key);
  }

  /** A file that says an endpoint, its lines in any order and as often as they like, is read as
      that endpoint, whatever the number of its peers; a peer without AllowedIPs routes everything. */
  lemma EndpointIsReadBack<P>(conf: seq<Section>, ep: AwgLink.SingboxEndpoint, parse: string -> Option<P>,
          everything: seq<P>)
    requires LegalFile(conf, parse) && ValidEndpoint(ep, parse) && Says(conf, ep)
    ensures IniOf(FileText(conf), parse, everything) == Ok(EndpointMeant(ep, parse, everything))
  {
    LegalParts(conf, parse);
    SettingsAreMeant(SettingsOf(conf), ep);
    PeersAreMeant(PeersOf(conf), ep.peers, parse, everything);
    NothingIsWrong(conf, ep.privateKey, ep.obfuscation);
    FileIsRead(conf, parse, everything);
  }

  // ---- Every endpoint has a file ----

  function Maybe<L>(b: bool, l: L): seq<L> { if b then [l] else [] }

  function NumberLines(o: Obfuscation, names: seq<string>): seq<InterfaceLine>
    requires Total(o) && forall k :: k in names ==> k in NUMBER_KEYS
  {
    if names == [] then []
    else Maybe(o.numbers[names[0]] != 0, NumberLine(names[0], o.numbers[names[0]])) + NumberLines(o, names[1..])
  }

  function TextLines(o: Obfuscation, names: seq<string>): seq<InterfaceLine>
    requires Total(o) && forall k :: k in names ==> k in TEXT_KEYS
  {
    if names == [] then []
    else Maybe(o.texts[names[0]] != "", TextLine(names[0], o.texts[names[0]])) + TextLines(o, names[1..])
  }

  function WgSettings(ep: AwgLink.SingboxEndpoint): seq<InterfaceLine> {
    [KeyLine(ep.privateKey)] + Maybe(ep.address != [], AddressLine(ep.address)) + Maybe(ep.mtu != 0, MtuLine(ep.mtu))
  }

  function PeerHead(p: AwgLink.SingboxPeer): seq<PeerLine> {
    [PublicKeyLine(p.publicKey)] + Maybe(AwgLink.Psk(p) != "", PresharedKeyLine(AwgLink.Psk(p)))
    + Maybe(p.allowedIPs != [], AllowedLine(p.allowedIPs))
  }

  function PeerLines(p: AwgLink.SingboxPeer): seq<PeerLine> {
    PeerHead(p) + [EndpointLine(p.address, p.port)]
    + Maybe(p.keepalive != 0, KeepaliveLine(p.keepalive)) + Maybe(p.reserved != [], ReservedLine(p.reserved))
  }

  function PeerSections(ps: seq<AwgLink.SingboxPeer>): (r: seq<Section>)
    ensures |r| == |ps|
  {
    seq(|ps|, i requires 0 <= i < |ps| => PeerSection(PeerLines(ps[i])))
  }

  lemma OrdersAreKeys()
    ensures forall k :: k in AwgLink.NUMBER_ORDER <==> k in NUMBER_KEYS
    ensures forall k :: k in AwgLink.TEXT_ORDER <==> k in TEXT_KEYS
  {
    AwgLink.NumberOrderIsComplete();
    AwgLink.TextOrderIsComplete();
    forall k
      ensures k in AwgLink.NUMBER_ORDER <==> k in AwgLink.Elements(AwgLink.NUMBER_ORDER)
      ensures k in AwgLink.TEXT_ORDER <==> k in AwgLink.Elements(AwgLink.TEXT_ORDER)
    {
    }
  }

  /** The file that wg-quick would be given for an endpoint. */
  function ConfOf(ep: AwgLink.SingboxEndpoint): seq<Section>
    requires Total(ep.obfuscation)
  {
    OrdersAreKeys();
    var o := ep.obfuscation;
    [InterfaceSection(WgSettings(ep) + NumberLines(o, AwgLink.NUMBER_ORDER) + TextLines(o, AwgLink.TEXT_ORDER))]
    + PeerSections(ep.peers)
  }

  lemma GivesIn<L, V>(a: seq<L>, b: seq<L>, pick: L -> Option<V>)
    ensures Gives(a, pick) || Gives(b, pick) ==> Gives(a + b, pick)
  {
    if Gives(a, pick) {
      var i :| 0 <= i < |a| && pick(a[i]).Some?;
      assert (a + b)[i] == a[i];
    } else if Gives(b, pick) {
      var i :| 0 <= i < |b| && pick(b[i]).Some?;
      assert (a + b)[|a| + i] == b[i];
    }
  }

  lemma {:induction false} GatheredSplit<L, V>(a: seq<L>, b: seq<L>, pick: L -> seq<V>)
    ensures Gathered(a + b, pick) == Gathered(a, pick) + Gathered(b, pick)
    decreases |b|
  {
    if b == [] {
      assert a + b == a;
    } else {
      var n := |b| - 1;
      GatheredSplit(a, b[..n], pick);
      assert (a + b)[..|a| + n] == a + b[..n];
    }
  }

  lemma {:induction false} NoneGathered(ls: seq<InterfaceLine>)
    requires forall i :: 0 <= i < |ls| ==> ls[i].NumberLine? || ls[i].TextLine?
    ensures Gathered(ls, AddressesIn) == []
    decreases |ls|
  {
    if ls != [] {
      NoneGathered(ls[..|ls| - 1]);
    }
  }

  ghost predicate GoodSettings<P>(ls: seq<InterfaceLine>, ep: AwgLink.SingboxEndpoint, parse: string -> Option<P>) {
    LegalSettings(ls, parse) && TrueSettings(ls, ep)
  }

  lemma GoodTogether<P>(a: seq<InterfaceLine>, b: seq<InterfaceLine>, ep: AwgLink.SingboxEndpoint,
          parse: string -> Option<P>)
    requires GoodSettings(a, ep, parse) && GoodSettings(b, ep, parse)
    ensures GoodSettings(a + b, ep, parse)
  {
  }

  /** Lines that are fine and name no address. */
  ghost predicate GoodParameters<P>(ls: seq<InterfaceLine>, ep: AwgLink.SingboxEndpoint, parse: string -> Option<P>) {
    GoodSettings(ls, ep, parse) && forall i :: 0 <= i < |ls| ==> ls[i].NumberLine? || ls[i].TextLine?
  }

  lemma ParametersTogether<P>(a: seq<InterfaceLine>, b: seq<InterfaceLine>, ep: AwgLink.SingboxEndpoint,
          parse: string -> Option<P>)
    requires GoodParameters(a, ep, parse) && GoodParameters(b, ep, parse)
    ensures GoodParameters(a + b, ep, parse)
  {
    GoodTogether(a, b, ep, parse);
  }

  lemma OneNumberIsGood<P>(ep: AwgLink.SingboxEndpoint, k: string, parse: string -> Option<P>)
    requires k in ep.obfuscation.numbers && LegalSetting(NumberLine(k, ep.obfuscation.numbers[k]), parse)
    ensures GoodParameters([NumberLine(k, ep.obfuscation.numbers[k])], ep, parse)
  {
  }

  lemma NumberIsLegal<P>(o: Obfuscation, k: string, parse: string -> Option<P>)
    requires AwgLink.ValidObfuscation(o) && k in NUMBER_KEYS
    ensures LegalSetting(NumberLine(k, o.numbers[k]), parse)
  {
    assert o.numbers[k] == 0 || Minimum(k) <= o.numbers[k] < INT64_LIMIT;
  }

  lemma OneTextIsGood<P>(ep: AwgLink.SingboxEndpoint, k: string, parse: string -> Option<P>)
    requires Total(ep.obfuscation) && k in TEXT_KEYS && IsValue(ep.obfuscation.texts[k])
    ensures GoodParameters([TextLine(k, ep.obfuscation.texts[k])], ep, parse)
  {
  }

  lemma {:induction false} NumberLinesAreGood<P>(ep: AwgLink.SingboxEndpoint, names: seq<string>,
          parse: string -> Option<P>)
    requires AwgLink.ValidObfuscation(ep.obfuscation) && forall k :: k in names ==> k in NUMBER_KEYS
    ensures GoodParameters(NumberLines(ep.obfuscation, names), ep, parse)
  {
    if names != [] {
      var k, rest := names[0], NumberLines(ep.obfuscation, names[1..]);
      NumberLinesAreGood(ep, names[1..], parse);
      NumberIsLegal(ep.obfuscation, k, parse);
      OneNumberIsGood(ep, k, parse);
      var n := ep.obfuscation.numbers[k];
      ParametersTogether(Maybe(n != 0, NumberLine(k, n)), rest, ep, parse);
    }
  }

  lemma {:induction false} TextLinesAreGood<P>(ep: AwgLink.SingboxEndpoint, names: seq<string>,
          parse: string -> Option<P>)
    requires Total(ep.obfuscation) && forall k :: k in names ==> k in TEXT_KEYS
    requires forall k :: k in TEXT_KEYS ==> IsValue(ep.obfuscation.texts[k])
    ensures GoodParameters(TextLines(ep.obfuscation, names), ep, parse)
  {
    if names != [] {
      var k, rest := names[0], TextLines(ep.obfuscation, names[1..]);
      TextLinesAreGood(ep, names[1..], parse);
      OneTextIsGood(ep, k, parse);
      ParametersTogether(Maybe(ep.obfuscation.texts[k] != "", TextLine(k, ep.obfuscation.texts[k])), rest, ep, parse);
    }
  }

  lemma OneGives<L, V>(l: L, pick: L -> Option<V>)
    requires pick(l).Some?
    ensures Gives([l], pick)
  {
    assert pick([l][0]).Some?;
  }

  lemma {:induction false} NumberLinesGive(o: Obfuscation, names: seq<string>, k: string)
    requires Total(o) && (forall j :: j in names ==> j in NUMBER_KEYS) && k in names && o.numbers[k] != 0
    ensures Gives(NumberLines(o, names), NumberIn(k))
  {
    var j, rest := names[0], names[1..];
    var first := Maybe(o.numbers[j] != 0, NumberLine(j, o.numbers[j]));
    if j == k {
      OneGives(NumberLine(k, o.numbers[k]), NumberIn(k));
    } else {
      assert names == [j] + rest;
      NumberLinesGive(o, rest, k);
    }
    GivesIn(first, NumberLines(o, rest), NumberIn(k));
  }

  lemma {:induction false} TextLinesGive(o: Obfuscation, names: seq<string>, k: string)
    requires Total(o) && (forall j :: j in names ==> j in TEXT_KEYS) && k in names && o.texts[k] != ""
    ensures Gives(TextLines(o, names), TextIn(k))
  {
    var j, rest := names[0], names[1..];
    var first := Maybe(o.texts[j] != "", TextLine(j, o.texts[j]));
    if j == k {
      OneGives(TextLine(k, o.texts[k]), TextIn(k));
    } else {
      assert names == [j] + rest;
      TextLinesGive(o, rest, k);
    }
    GivesIn(first, TextLines(o, rest), TextIn(k));
  }

  lemma WgSettingsAreGood<P>(ep: AwgLink.SingboxEndpoint, parse: string -> Option<P>)
    requires IsValue(ep.privateKey) && AreItems(ep.address, parse) && ep.mtu < 0x1_0000_0000
    ensures GoodSettings(WgSettings(ep), ep, parse)
  {
  }

  lemma WgSettingsGather(ep: AwgLink.SingboxEndpoint)
    ensures Gathered(WgSettings(ep), AddressesIn) == ep.address
  {
    var key, addresses, mtu := [KeyLine(ep.privateKey)], Maybe(ep.address != [], AddressLine(ep.address)),
      Maybe(ep.mtu != 0, MtuLine(ep.mtu));
    GatheredSplit(key + addresses, mtu, AddressesIn);
    GatheredSplit(key, addresses, AddressesIn);
    GatheredOne(key, KeyLine(ep.privateKey));
    GatheredOne(mtu, MtuLine(ep.mtu));
    GatheredOne(addresses, AddressLine(ep.address));
  }

  lemma WgSettingsGive(ep: AwgLink.SingboxEndpoint)
    ensures Gives(WgSettings(ep), KeyIn) && (ep.mtu == 0 || Gives(WgSettings(ep), MtuIn))
  {
    var ls := WgSettings(ep);
    assert KeyIn(ls[0]).Some?;
    if ep.mtu != 0 {
      assert ls[|ls| - 1] == MtuLine(ep.mtu);
      assert MtuIn(ls[|ls| - 1]).Some?;
    }
  }

  lemma GatheredOne(ls: seq<InterfaceLine>, l: InterfaceLine)
    requires ls == [] || ls == [l]
    ensures Gathered(ls, AddressesIn) == if ls == [] then [] else AddressesIn(l)
  {
    assert ls == [] || ls[..0] == [];
  }

  lemma KeyIsValue(key: string)
    requires AwgLink.IsKey(key)
    ensures IsValue(key)
  {
    var b: string :| IsBytes(b) && |b| == Keys.WG_KEY_BYTES && key == Base64.Encode(b, Base64.Std, true);
    Keys.EncodeIsTrimmed(b, Base64.Std, true);
    Base64.EncodedChars(b, Base64.Std, true);
  }

  lemma ParametersGiven(o: Obfuscation)
    requires Total(o)
    ensures (forall k :: k in AwgLink.NUMBER_ORDER ==> k in NUMBER_KEYS)
            && NumbersGiven(NumberLines(o, AwgLink.NUMBER_ORDER), o.numbers)
    ensures (forall k :: k in AwgLink.TEXT_ORDER ==> k in TEXT_KEYS)
            && TextsGiven(TextLines(o, AwgLink.TEXT_ORDER), o.texts)
  {
    OrdersAreKeys();
    forall k | k in NUMBER_KEYS
      ensures o.numbers[k] == 0 || Gives(NumberLines(o, AwgLink.NUMBER_ORDER), NumberIn(k))
    {
      if o.numbers[k] != 0 {
        NumberLinesGive(o, AwgLink.NUMBER_ORDER, k);
      }
    }
    forall k | k in TEXT_KEYS
      ensures o.texts[k] == "" || Gives(TextLines(o, AwgLink.TEXT_ORDER), TextIn(k))
    {
      if o.texts[k] != "" {
        TextLinesGive(o, AwgLink.TEXT_ORDER, k);
      }
    }
  }

  /** Three runs of lines that between them say the endpoint. */
  lemma SaidTogether<P>(wg: seq<InterfaceLine>, numbers: seq<InterfaceLine>, texts: seq<InterfaceLine>,
          ep: AwgLink.SingboxEndpoint, parse: string -> Option<P>)
    requires GoodSettings(wg, ep, parse) && Gathered(wg, AddressesIn) == ep.address
    requires Gives(wg, KeyIn) && (ep.mtu == 0 || Gives(wg, MtuIn))
    requires GoodParameters(numbers, ep, parse) && NumbersGiven(numbers, ep.obfuscation.numbers)
    requires GoodParameters(texts, ep, parse) && TextsGiven(texts, ep.obfuscation.texts)
    ensures GoodSettings(wg + numbers + texts, ep, parse) && SettingsSay(wg + numbers + texts, ep)
  {
    GoodTogether(wg, numbers, ep, parse);
    GoodTogether(wg + numbers, texts, ep, parse);
    GatheredSplit(wg, numbers, AddressesIn);
    GatheredSplit(wg + numbers, texts, AddressesIn);
    NoneGathered(numbers);
    NoneGathered(texts);
    GivesIn(wg, numbers, KeyIn);
    GivesIn(wg + numbers, texts, KeyIn);
    GivesIn(wg, numbers, MtuIn);
    GivesIn(wg + numbers, texts, MtuIn);
    ParametersIn(wg, numbers, texts, ep.obfuscation);
  }

  lemma ParametersIn(wg: seq<InterfaceLine>, numbers: seq<InterfaceLine>, texts: seq<InterfaceLine>, o: Obfuscation)
    requires NumbersGiven(numbers, o.numbers) && TextsGiven(texts, o.texts)
    ensures NumbersGiven(wg + numbers + texts, o.numbers) && TextsGiven(wg + numbers + texts, o.texts)
  {
    forall k | k in NUMBER_KEYS
      ensures o.numbers[k] == 0 || Gives(wg + numbers + texts, NumberIn(k))
    {
      GivesIn(wg, numbers, NumberIn(k));
      GivesIn(wg + numbers, texts, NumberIn(k));
    }
    forall k | k in TEXT_KEYS
      ensures o.texts[k] == "" || Gives(wg + numbers + texts, TextIn(k))
    {
      GivesIn(wg + numbers, texts, TextIn(k));
    }
  }

  lemma SettingsOfConf(ep: AwgLink.SingboxEndpoint)
    requires Total(ep.obfuscation)
    ensures SettingsOf(ConfOf(ep)) == ConfOf(ep)[0].settings && |ConfOf(ep)| == 1 + |ep.peers|
    ensures PeersOf(ConfOf(ep)) == PeersOf(PeerSections(ep.peers))
  {
    assert ConfOf(ep)[1..] == PeerSections(ep.peers);
    SettingsOfPeers(ep.peers);
  }

  lemma {:induction false} SettingsOfPeers(ps: seq<AwgLink.SingboxPeer>)
    ensures SettingsOf(PeerSections(ps)) == []
  {
    if ps != [] {
      assert PeerSections(ps)[1..] == PeerSections(ps[1..]);
      SettingsOfPeers(ps[1..]);
    }
  }

  function LinesOfPeers(ps: seq<AwgLink.SingboxPeer>): (r: seq<seq<PeerLine>>)
    ensures |r| == |ps|
  {
    seq(|ps|, i requires 0 <= i < |ps| => PeerLines(ps[i]))
  }

  lemma {:induction false} PeersOfPeers(ps: seq<AwgLink.SingboxPeer>)
    ensures PeersOf(PeerSections(ps)) == LinesOfPeers(ps)
  {
    if ps != [] {
      assert PeerSections(ps)[1..] == PeerSections(ps[1..]);
      PeersOfPeers(ps[1..]);
      assert LinesOfPeers(ps) == [PeerLines(ps[0])] + LinesOfPeers(ps[1..]);
    }
  }

  lemma KeysAreValues<P>(p: AwgLink.SingboxPeer, parse: string -> Option<P>)
    requires AwgLink.ValidPeer(p, parse)
    ensures IsValue(p.publicKey) && IsValue(AwgLink.Psk(p))
  {
    KeyIsValue(p.publicKey);
    if AwgLink.Psk(p) != "" {
      KeyIsValue(AwgLink.Psk(p));
    }
  }

  lemma LegalTogether<P>(a: seq<PeerLine>, b: seq<PeerLine>, parse: string -> Option<P>)
    requires LegalLines(a, parse) && LegalLines(b, parse)
    ensures LegalLines(a + b, parse)
  {
  }

  lemma PeerLinesAreLegal<P>(p: AwgLink.SingboxPeer, parse: string -> Option<P>)
    requires IsValue(p.publicKey) && IsValue(AwgLink.Psk(p)) && AreItems(p.allowedIPs, parse)
    requires Urls.ValidHost(p.address) && 0 < p.port < 0x1_0000 && p.keepalive < 0x1_0000
    requires AwgLink.AreBytes(p.reserved)
    ensures LegalLines(PeerLines(p), parse)
  {
    var a, b := [PublicKeyLine(p.publicKey)], Maybe(AwgLink.Psk(p) != "", PresharedKeyLine(AwgLink.Psk(p)));
    var c, d := Maybe(p.allowedIPs != [], AllowedLine(p.allowedIPs)), [EndpointLine(p.address, p.port)];
    var e, f := Maybe(p.keepalive != 0, KeepaliveLine(p.keepalive)), Maybe(p.reserved != [], ReservedLine(p.reserved));
    LegalTogether(a, b, parse);
    LegalTogether(a + b, c, parse);
    LegalTogether(a + b + c, d, parse);
    LegalTogether(a + b + c + d, e, parse);
    LegalTogether(a + b + c + d + e, f, parse);
  }

  lemma GatheredPeerOne<V>(l: PeerLine, b: bool, pick: PeerLine -> seq<V>)
    ensures Gathered(Maybe(b, l), pick) == if b then pick(l) else []
  {
    assert b ==> Maybe(b, l)[..0] == [];
  }

  lemma GatheredMore<V>(front: seq<PeerLine>, b: bool, l: PeerLine, pick: PeerLine -> seq<V>)
    ensures Gathered(front + Maybe(b, l), pick) == Gathered(front, pick) + if b then pick(l) else []
  {
    if b {
      GatheredStep(front, l, pick);
    } else {
      assert front + [] == front;
    }
  }

  lemma GatheredNothing<V>(front: seq<PeerLine>, b: bool, l: PeerLine, pick: PeerLine -> seq<V>)
    requires pick(l) == []
    ensures Gathered(front + Maybe(b, l), pick) == Gathered(front, pick)
  {
    GatheredMore(front, b, l, pick);
  }

  lemma HeadGathers<V>(p: AwgLink.SingboxPeer, pick: PeerLine -> seq<V>)
    requires pick(PublicKeyLine(p.publicKey)) == [] && pick(PresharedKeyLine(AwgLink.Psk(p))) == []
    ensures Gathered(PeerHead(p), pick) == if p.allowedIPs != [] then pick(AllowedLine(p.allowedIPs)) else []
  {
    var one := [PublicKeyLine(p.publicKey)];
    var two := one + Maybe(AwgLink.Psk(p) != "", PresharedKeyLine(AwgLink.Psk(p)));
    GatheredPeerOne(PublicKeyLine(p.publicKey), true, pick);
    GatheredNothing(one, AwgLink.Psk(p) != "", PresharedKeyLine(AwgLink.Psk(p)), pick);
    GatheredMore(two, p.allowedIPs != [], AllowedLine(p.allowedIPs), pick);
  }

  lemma TailGathers<V>(front: seq<PeerLine>, p: AwgLink.SingboxPeer, pick: PeerLine -> seq<V>)
    requires pick(EndpointLine(p.address, p.port)) == [] && pick(KeepaliveLine(p.keepalive)) == []
    ensures Gathered(front + [EndpointLine(p.address, p.port)] + Maybe(p.keepalive != 0, KeepaliveLine(p.keepalive))
                     + Maybe(p.reserved != [], ReservedLine(p.reserved)), pick)
            == Gathered(front, pick) + if p.reserved != [] then pick(ReservedLine(p.reserved)) else []
  {
    var one := front + [EndpointLine(p.address, p.port)];
    GatheredStep(front, EndpointLine(p.address, p.port), pick);
    GatheredNothing(one, p.keepalive != 0, KeepaliveLine(p.keepalive), pick);
    GatheredMore(one + Maybe(p.keepalive != 0, KeepaliveLine(p.keepalive)), p.reserved != [], ReservedLine(p.reserved),
                 pick);
  }

  lemma PeerLinesGive(p: AwgLink.SingboxPeer)
    ensures Gives(PeerLines(p), PublicKeyIn) && Gives(PeerLines(p), HostIn)
    ensures p.keepalive != 0 ==> Gives(PeerLines(p), KeepaliveIn)
    ensures AwgLink.Psk(p) != "" ==> Gives(PeerLines(p), PresharedKeyIn)
  {
    var ls := PeerLines(p);
    var b, c := Maybe(AwgLink.Psk(p) != "", PresharedKeyLine(AwgLink.Psk(p))),
      Maybe(p.allowedIPs != [], AllowedLine(p.allowedIPs));
    assert PublicKeyIn(ls[0]).Some?;
    assert ls[1 + |b| + |c|] == EndpointLine(p.address, p.port) && HostIn(ls[1 + |b| + |c|]).Some?;
    if p.keepalive != 0 {
      assert ls[2 + |b| + |c|] == KeepaliveLine(p.keepalive) && KeepaliveIn(ls[2 + |b| + |c|]).Some?;
    }
    if AwgLink.Psk(p) != "" {
      assert ls[1] == PresharedKeyLine(AwgLink.Psk(p)) && PresharedKeyIn(ls[1]).Some?;
    }
  }

  lemma PeerListsGather(p: AwgLink.SingboxPeer)
    ensures Gathered(PeerLines(p), AllowedIn) == p.allowedIPs && Gathered(PeerLines(p), ReservedIn) == p.reserved
  {
    HeadGathers(p, AllowedIn);
    TailGathers(PeerHead(p), p, AllowedIn);
    HeadGathers(p, ReservedIn);
    TailGathers(PeerHead(p), p, ReservedIn);
  }

  lemma PeerLinesAreTrue(p: AwgLink.SingboxPeer)
    ensures forall i :: 0 <= i < |PeerLines(p)| ==> TruePeerLine(PeerLines(p)[i], p)
  {
  }

  lemma PeerLinesSay(p: AwgLink.SingboxPeer)
    ensures PeerSays(PeerLines(p), p)
  {
    PeerLinesAreTrue(p);
    PeerListsGather(p);
    PeerLinesGive(p);
  }

  lemma ConfSettings<P>(ep: AwgLink.SingboxEndpoint, parse: string -> Option<P>)
    requires ValidEndpoint(ep, parse)
    ensures GoodSettings(ConfOf(ep)[0].settings, ep, parse) && SettingsSay(ConfOf(ep)[0].settings, ep)
  {
    var o := ep.obfuscation;
    KeyIsValue(ep.privateKey);
    WgSettingsAreGood(ep, parse);
    WgSettingsGather(ep);
    WgSettingsGive(ep);
    ParametersGiven(o);
    NumberLinesAreGood(ep, AwgLink.NUMBER_ORDER, parse);
    TextLinesAreGood(ep, AwgLink.TEXT_ORDER, parse);
    SaidTogether(WgSettings(ep), NumberLines(o, AwgLink.NUMBER_ORDER), TextLines(o, AwgLink.TEXT_ORDER), ep, parse);
  }

  lemma PeerSectionIsLegal<P>(p: AwgLink.SingboxPeer, parse: string -> Option<P>)
    requires AwgLink.ValidPeer(p, parse) && AreItems(p.allowedIPs, parse)
    ensures LegalSection(PeerSection(PeerLines(p)), parse)
  {
    KeysAreValues(p, parse);
    PeerLinesAreLegal(p, parse);
  }

  lemma PeerSectionsAreLegal<P>(ps: seq<AwgLink.SingboxPeer>, parse: string -> Option<P>)
    requires ArePeers(ps, parse)
    ensures LegalFile(PeerSections(ps), parse)
  {
    forall i | 0 <= i < |ps|
      ensures LegalSection(PeerSections(ps)[i], parse)
    {
      PeerSectionIsLegal(ps[i], parse);
    }
  }

  lemma OneMoreSection<P>(section: Section, rest: seq<Section>, parse: string -> Option<P>)
    requires LegalSection(section, parse) && LegalFile(rest, parse)
    ensures LegalFile([section] + rest, parse)
  {
  }

  lemma PeersSay(ps: seq<AwgLink.SingboxPeer>)
    ensures AllSay(LinesOfPeers(ps), ps)
  {
    forall i | 0 <= i < |ps|
      ensures PeerSays(LinesOfPeers(ps)[i], ps[i])
    {
      PeerLinesSay(ps[i]);
    }
  }

  /** The file of a valid endpoint is legal and says the endpoint. */
  lemma ConfSays<P>(ep: AwgLink.SingboxEndpoint, parse: string -> Option<P>)
    requires ValidEndpoint(ep, parse)
    ensures LegalFile(ConfOf(ep), parse) && Says(ConfOf(ep), ep)
  {
    SettingsOfConf(ep);
    PeersOfPeers(ep.peers);
    ConfSettings(ep, parse);
    PeerSectionsAreLegal(ep.peers, parse);
    OneMoreSection(ConfOf(ep)[0], PeerSections(ep.peers), parse);
    PeersSay(ep.peers);
  }

  /** So every valid endpoint has a file, and the file is read back as it. */
  lemma PrintedFileIsReadBack<P>(ep: AwgLink.SingboxEndpoint, parse: string -> Option<P>, everything: seq<P>)
    requires ValidEndpoint(ep, parse)
    ensures IniOf(FileText(ConfOf(ep)), parse, everything) == Ok(EndpointMeant(ep, parse, everything))
  {
    ConfSays(ep, parse);
    EndpointIsReadBack(ConfOf(ep), ep, parse, everything);
  }
}
