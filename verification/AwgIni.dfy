/**
 AWGSingboxTxt (xray2sing/ray2sing/awg.go): a wg-quick file, read line by line into an
 interface and its peers.
 */
module AwgIni {
  import opened Common
  import opened GoStrings
  import opened Awg
  import Keys
  import opened ShareUrl

  // ---- Lines ----

  const WG_KEY_TABLE: map<string, string> := map[
    "privatekey" := "PrivateKey", "publickey" := "PublicKey", "presharedkey" := "PresharedKey",
    "address" := "Address", "allowedips" := "AllowedIPs", "endpoint" := "Endpoint", "mtu" := "MTU",
    "dns" := "DNS", "persistentkeepalive" := "PersistentKeepalive", "reserved" := "Reserved"]

  const AWG_KEY_TABLE: map<string, string> := map[
    "jc" := "Jc", "jmin" := "Jmin", "jmax" := "Jmax", "s1" := "S1", "s2" := "S2", "s3" := "S3", "s4" := "S4",
    "h1" := "H1", "h2" := "H2", "h3" := "H3", "h4" := "H4",
    "i1" := "I1", "i2" := "I2", "i3" := "I3", "i4" := "I4", "i5" := "I5", "itime" := "Itime"]

  const KEY_TABLE: map<string, string> := WG_KEY_TABLE + AWG_KEY_TABLE

  /** canonicalWgKey: the table's spelling whatever the case, other keys as they are. */
  function CanonicalKey(key: string): string {
    if Lower(key) in KEY_TABLE then KEY_TABLE[Lower(key)] else key
  }

  const NUMBER_NAMES: map<string, string> := map[
    "Jc" := "jc", "Jmin" := "jmin", "Jmax" := "jmax", "S1" := "s1", "S2" := "s2", "S3" := "s3", "S4" := "s4",
    "Itime" := "itime", "ITime" := "itime", "ITIME" := "itime"]

  const TEXT_NAMES: map<string, string> := map[
    "H1" := "h1", "H2" := "h2", "H3" := "h3", "H4" := "h4", "I1" := "i1", "I2" := "i2", "I3" := "i3",
    "I4" := "i4", "I5" := "i5", "J1" := "j1", "J2" := "j2", "J3" := "j3"]

  function TrimBracketsLeft(s: string): string {
    if s != "" && (s[0] == '[' || s[0] == ']') then TrimBracketsLeft(s[1..]) else s
  }

  function TrimBracketsRight(s: string): string {
    if s != "" && (s[|s| - 1] == '[' || s[|s| - 1] == ']') then TrimBracketsRight(s[..|s| - 1]) else s
  }

  /** What a line says; the value of an entry is without its comment. */
  datatype Line = Nothing | Header(section: string) | Entry(key: string, value: string)

  function CutComment(val: string): string {
    var i := IndexByte(val, '#');
    if i < |val| then TrimSpace(val[..i]) else val
  }

  function CutLine(raw: string): Line { CutTrimmed(TrimSpace(raw)) }

  function CutTrimmed(line: string): Line {
    if line == "" || HasPrefix(line, "#") || HasPrefix(line, ";") then Nothing
    else if HasPrefix(line, "[") && HasSuffix(line, "]") then
      Header(Lower(TrimBracketsRight(TrimBracketsLeft(line))))
    else
      var eq := IndexByte(line, '=');
      if eq == |line| then Nothing
      else Entry(TrimSpace(line[..eq]), CutComment(TrimSpace(line[eq + 1..])))
  }

  /** A line with its key in canonical spelling. */
  function Classify(raw: string): Line {
    match CutLine(raw)
    case Entry(key, val) => Entry(CanonicalKey(key), val)
    case other => other
  }

  // ---- One entry ----

  datatype Interface<P> = Interface(privateKey: string, addresses: seq<P>, mtu: nat, obfuscation: Obfuscation)

  function NoObfuscation(): (o: Obfuscation)
    ensures Total(o)
  {
    Obfuscation(map k | k in NUMBER_KEYS :: 0, map k | k in TEXT_KEYS :: "")
  }

  function EmptyInterface<P>(): Interface<P> { Interface("", [], 0, NoObfuscation()) }

  function EmptyPeer<P>(): Peer<P> { Peer("", 0, "", "", [], 0, []) }

  function SetInterface<P>(i: Interface<P>, key: string, val: string, parse: string -> Option<P>): Result<Interface<P>,
          Failure> {
    if key == "PrivateKey" then Ok(i.(privateKey := val))
    else if key == "Address" then
      match ParseAll(Split(val, ','), parse)
      case Some(ps) => Ok(i.(addresses := i.addresses + ps))
      case None => Err(BadAddress)
    else if key == "MTU" then
      Ok(match ParseUint(val, 0x1_0000_0000) case Some(n) => i.(mtu := n) case None => i)
    else if key in NUMBER_NAMES then
      Ok(i.(obfuscation := i.obfuscation.(numbers := i.obfuscation.numbers[NUMBER_NAMES[key] := Atoi(val).value])))
    else if key in TEXT_NAMES then
      Ok(i.(obfuscation := i.obfuscation.(texts := i.obfuscation.texts[TEXT_NAMES[key] := val])))
    else Ok(i)
  }

  datatype HostAndPort = HostAndPort(host: string, port: string)

  /** net.SplitHostPort */
  function SplitHostPort(s: string): Option<HostAndPort> {
    var i := LastIndexByte(s, ':');
    if i < 0 then None
    else if s[0] == '[' then
      var end := IndexByte(s, ']');
      if end + 1 != i || '[' in s[1..] || ']' in s[end + 1..] then None
      else Some(HostAndPort(s[1..end], s[i + 1..]))
    else if ':' in s[..i] || '[' in s || ']' in s then None
    else Some(HostAndPort(s[..i], s[i + 1..]))
  }

  function SetPeer<P>(p: Peer<P>, key: string, val: string, parse: string -> Option<P>): Result<Peer<P>, Failure> {
    if key == "PublicKey" then Ok(p.(publicKey := val))
    else if key == "PresharedKey" then Ok(p.(presharedKey := val))
    else if key == "Reserved" then
      match ParseBytes(NonBlank(Split(val, ',')))
      case Some(ns) => Ok(p.(reserved := p.reserved + ns))
      case None => Err(BadReserved)
    else if key == "AllowedIPs" then
      match ParseAll(NonBlank(Split(val, ',')), parse)
      case Some(ps) => Ok(p.(allowedIPs := p.allowedIPs + ps))
      case None => Err(BadAddress)
    else if key == "Endpoint" then
      match SplitHostPort(val)
      case None => Err(BadEndpoint)
      case Some(hp) =>
        if Atoi(hp.port).ok then Ok(p.(address := hp.host, port := Uint16(Atoi(hp.port).value))) else Err(BadEndpoint)
    else if key == "PersistentKeepalive" then Ok(p.(keepalive := Uint16(Atoi(val).value)))
    else Ok(p)
  }

  // ---- The whole file ----

  /** How entries change an interface and a peer, and the peer that a block starts from. */
  datatype Rules<!I, !Q> = Rules(setInterface: (I, string, string) -> Result<I, Failure>,
                               setPeer: (Q, string, string) -> Result<Q, Failure>, noPeer: Q)

  function RulesFor<P>(parse: string -> Option<P>): Rules<Interface<P>, Peer<P>> {
    Rules((i, key, val) => SetInterface(i, key, val, parse), (p, key, val) => SetPeer(p, key, val, parse), EmptyPeer())
  }

  datatype State<I, Q> = State(section: string, iface: I, peers: seq<Q>, peer: Q, havePeer: bool)

  function Start<P>(): State<Interface<P>, Peer<P>> { State("", EmptyInterface(), [], EmptyPeer(), false) }

  function Flush<I, Q>(s: State<I, Q>, rules: Rules<I, Q>): State<I, Q> {
    if s.havePeer then s.(peers := s.peers + [s.peer], peer := rules.noPeer, havePeer := false) else s
  }

  function Step<I, Q>(s: State<I, Q>, line: Line, rules: Rules<I, Q>): Result<State<I, Q>, Failure> {
    match line
    case Nothing => Ok(s)
    case Header(section) => Ok(Flush(s, rules).(section := section))
    case Entry(key, val) =>
      if s.section == "interface" then
        match rules.setInterface(s.iface, key, val)
        case Ok(i) => Ok(s.(iface := i))
        case Err(e) => Err(e)
      else if s.section == "peer" then
        match rules.setPeer(s.peer, key, val)
        case Ok(p) => Ok(s.(peer := p, havePeer := true))
        case Err(e) => Err(e)
      else Ok(s)
  }

  function Run<I, Q>(s: State<I, Q>, lines: seq<Line>, rules: Rules<I, Q>): Result<State<I, Q>, Failure>
    decreases |lines|
  {
    if lines == [] then Ok(s)
    else match Step(s, lines[0], rules) case Ok(t) => Run(t, lines[1..], rules) case Err(e) => Err(e)
  }

  function Lines(raws: seq<string>): (r: seq<Line>)
    ensures |r| == |raws|
  {
    seq(|raws|, i requires 0 <= i < |raws| => Classify(raws[i]))
  }

  /** The default routes a peer without AllowedIPs gets. */
  function FinishPeer<P>(p: Peer<P>, everything: seq<P>): Result<Peer<P>, Failure> {
    if p.address == "" || p.port == 0 then Err(MissingEndpoint)
    else if p.publicKey == "" then Err(MissingPublicKey)
    else
      match (Keys.NormalizeWgKey(p.publicKey), Keys.NormalizeWgKey(p.presharedKey))
      case (Some(pub), Some(psk)) =>
        if !ReservedCount(|p.reserved|) then Err(BadReserved)
        else
          var allowed := if p.allowedIPs == [] then everything else p.allowedIPs;
          Ok(p.(publicKey := pub, presharedKey := psk, allowedIPs := allowed))
      case _ => Err(BadKey)
  }

  function FinishPeers<P>(ps: seq<Peer<P>>, everything: seq<P>): Result<seq<Peer<P>>, Failure> {
    if ps == [] then Ok([])
    else
      match FinishPeer(ps[0], everything)
      case Err(e) => Err(e)
      case Ok(p) => match FinishPeers(ps[1..], everything) case Ok(rest) => Ok([p] + rest) case Err(e) => Err(e)
  }

  function Finish<P>(i: Interface<P>, peers: seq<Peer<P>>, everything: seq<P>): Result<Endpoint<P>, Failure>
    requires Total(i.obfuscation)
  {
    if i.privateKey == "" then Err(MissingPrivateKey)
    else
      match Keys.NormalizeWgKey(i.privateKey)
      case None => Err(BadKey)
      case Some(key) =>
        if peers == [] then Err(MissingEndpoint)
        else
          match FinishPeers(peers, everything)
          case Err(e) => Err(e)
          case Ok(done) =>
            var o := i.obfuscation.(numbers := Clamped(i.obfuscation.numbers));
            if !HeadersOk(o) then Err(BadHeader)
            else if !SpecsOk(o) then Err(BadSpec)
            else if LooksPlain(o) then Ok(WireGuard("wireguard", key, i.addresses, i.mtu, 0, done))
            else Ok(AmneziaWG("awg", key, i.addresses, i.mtu, o, done))
  }

  lemma SetStaysTotal<P>(i: Interface<P>, key: string, val: string, parse: string -> Option<P>)
    requires Total(i.obfuscation)
    ensures var r := SetInterface(i, key, val, parse); r.Ok? ==> Total(r.value.obfuscation)
  {
  }

  lemma {:induction false} RunStaysTotal<P>(s: State<Interface<P>, Peer<P>>, lines: seq<Line>,
          parse: string -> Option<P>)
    requires Total(s.iface.obfuscation)
    ensures var r := Run(s, lines, RulesFor(parse)); r.Ok? ==> Total(r.value.iface.obfuscation)
    decreases |lines|
  {
    if lines != [] && Step(s, lines[0], RulesFor(parse)).Ok? {
      if lines[0].Entry? {
        SetStaysTotal(s.iface, lines[0].key, lines[0].value, parse);
      }
      RunStaysTotal(Step(s, lines[0], RulesFor(parse)).value, lines[1..], parse);
    }
  }

  function IniOf<P>(content: string, parse: string -> Option<P>, everything: seq<P>): Result<Endpoint<P>, Failure> {
    var lines := Lines(Split(content, '\n'));
    RunStaysTotal(Start(), lines, parse);
    match Run(Start(), lines, RulesFor(parse))
    case Err(e) => Err(e)
    case Ok(s) => Finish(s.iface, Flush(s, RulesFor(parse)).peers, everything)
  }

  method AWGSingboxTxt<P>(content: string, parse: string -> Option<P>, everything: seq<P>)
    returns (r: Result<Endpoint<P>, Failure>)
    ensures r == IniOf(content, parse, everything)
  {
    RunStaysTotal(Start(), Lines(Split(content, '\n')), parse);
    var s := ReadLines(Split(content, '\n'), Start(), RulesFor(parse));
    r := match s case Err(e) => Err(e) case Ok(t) => Finish(t.iface, t.peers, everything);
  }

  /** The loop over the lines, the last peer committed after it. */
  method ReadLines<I, Q>(raws: seq<string>, start: State<I, Q>, rules: Rules<I, Q>)
    returns (r: Result<State<I, Q>, Failure>)
    ensures r == match Run(start, Lines(raws), rules) case Ok(s) => Ok(Flush(s, rules)) case Err(e) => Err(e)
  {
    var section, iface, peers, peer, havePeer := start.section, start.iface, start.peers, start.peer, start.havePeer;
    var n := 0;
    while n < |raws|
      invariant 0 <= n <= |raws|
      invariant Run(start, Lines(raws), rules)
                == Run(State(section, iface, peers, peer, havePeer), Lines(raws[n..]), rules)
    {
      UnrollLine(State(section, iface, peers, peer, havePeer), raws, n, rules);
      match Classify(raws[n]) {
        case Nothing =>
        case Header(name) =>
          if havePeer {
            peers, peer, havePeer := peers + [peer], rules.noPeer, false;
          }
          section := name;
        case Entry(key, val) =>
          if section == "interface" {
            var changed := rules.setInterface(iface, key, val);
            if changed.Err? {
              return Err(changed.error);
            }
            iface := changed.value;
          } else if section == "peer" {
            havePeer := true;
            var changed := rules.setPeer(peer, key, val);
            if changed.Err? {
              return Err(changed.error);
            }
            peer := changed.value;
          }
      }
      n := n + 1;
    }
    assert Lines(raws[|raws|..]) == [];
    if havePeer {
      peers, peer, havePeer := peers + [peer], rules.noPeer, false;
    }
    r := Ok(State(section, iface, peers, peer, havePeer));
  }

  lemma UnrollLine<I, Q>(s: State<I, Q>, raws: seq<string>, n: nat, rules: Rules<I, Q>)
    requires n < |raws|
    ensures Run(s, Lines(raws[n..]), rules)
            == match Step(s, Classify(raws[n]), rules)
               case Ok(t) => Run(t, Lines(raws[n + 1..]), rules)
               case Err(e) => Err(e)
  {
    assert Lines(raws[n..])[1..] == Lines(raws[n + 1..]);
  }

  // ---- What does not matter ----

  /** The lines that say something: no blank lines, no comments, no stray text; keys in their
      canonical spelling. */
  function Meaningful(lines: seq<Line>): seq<Line> {
    if lines == [] then []
    else (if lines[0].Nothing? then [] else [lines[0]]) + Meaningful(lines[1..])
  }

  function MeaningOf(content: string): seq<Line> { Meaningful(Lines(Split(content, '\n'))) }

  lemma {:induction false} RunOfMeaning<I, Q>(s: State<I, Q>, lines: seq<Line>, rules: Rules<I, Q>)
    ensures Run(s, lines, rules) == Run(s, Meaningful(lines), rules)
    decreases |lines|
  {
    if lines != [] {
      var rest := Meaningful(lines[1..]);
      if lines[0].Nothing? {
        RunOfMeaning(s, lines[1..], rules);
        assert Meaningful(lines) == rest;
      } else {
        assert Meaningful(lines)[1..] == rest;
        if Step(s, lines[0], rules).Ok? {
          RunOfMeaning(Step(s, lines[0], rules).value, lines[1..], rules);
        }
      }
    }
  }

  /** Two files that say the same are read the same: blank lines, comments, white space and the
      case of a key of the table change nothing. */
  lemma OnlyTheMeaningMatters<P>(c: string, d: string, parse: string -> Option<P>, everything: seq<P>)
    requires MeaningOf(c) == MeaningOf(d)
    ensures IniOf(c, parse, everything) == IniOf(d, parse, everything)
  {
    RunOfMeaning(Start(), Lines(Split(c, '\n')), RulesFor(parse));
    RunOfMeaning(Start(), Lines(Split(d, '\n')), RulesFor(parse));
  }

  lemma LinesSplit(a: seq<string>, b: seq<string>)
    ensures Lines(a + b) == Lines(a) + Lines(b)
  {
  }

  lemma {:induction false} MeaningfulSplit(a: seq<Line>, b: seq<Line>)
    ensures Meaningful(a + b) == Meaningful(a) + Meaningful(b)
  {
    if a == [] {
      assert a + b == b;
    } else {
      var line, rest := a[0], a[1..];
      calc {
        Meaningful(a + b);
        { assert a + b == [line] + (rest + b); MeaningfulStep(line, rest + b); }
        Meaningful([line]) + Meaningful(rest + b);
        { MeaningfulSplit(rest, b); }
        Meaningful([line]) + (Meaningful(rest) + Meaningful(b));
        (Meaningful([line]) + Meaningful(rest)) + Meaningful(b);
        { assert a == [line] + rest; MeaningfulStep(line, rest); }
        Meaningful(a) + Meaningful(b);
      }
    }
  }

  lemma MeaningfulStep(line: Line, rest: seq<Line>)
    ensures Meaningful([line]) == if line.Nothing? then [] else [line]
    ensures Meaningful([line] + rest) == Meaningful([line]) + Meaningful(rest)
  {
    assert ([line] + rest)[1..] == rest && [line][1..] == [];
  }

  lemma MeaningAround(before: seq<string>, line: seq<string>, after: seq<string>)
    requires Free(before + line + after, '\n') && before + line + after != []
    ensures MeaningOf(Join(before + line + after, '\n'))
            == Meaningful(Lines(before)) + Meaningful(Lines(line)) + Meaningful(Lines(after))
  {
    SplitJoin(before + line + after, '\n');
    LinesSplit(before + line, after);
    LinesSplit(before, line);
    MeaningfulSplit(Lines(before) + Lines(line), Lines(after));
    MeaningfulSplit(Lines(before), Lines(line));
  }

  /** A blank line, a comment or a line without a '=' may stand anywhere. */
  lemma IgnoredLineAnywhere<P>(before: seq<string>, line: string, after: seq<string>, parse: string -> Option<P>,
          everything: seq<P>)
    requires Free(before + [line] + after, '\n') && before + after != []
    requires var t := TrimSpace(line); t == "" || t[0] == '#' || t[0] == ';' || (t[0] != '[' && '=' !in t)
    ensures IniOf(Join(before + [line] + after, '\n'), parse, everything)
            == IniOf(Join(before + after, '\n'), parse, everything)
  {
    IgnoredLineMeansNothing(before, line, after);
    OnlyTheMeaningMatters(Join(before + [line] + after, '\n'), Join(before + after, '\n'), parse, everything);
  }

  lemma IgnoredLineMeansNothing(before: seq<string>, line: string, after: seq<string>)
    requires Free(before + [line] + after, '\n') && before + after != []
    requires var t := TrimSpace(line); t == "" || t[0] == '#' || t[0] == ';' || (t[0] != '[' && '=' !in t)
    ensures MeaningOf(Join(before + [line] + after, '\n')) == MeaningOf(Join(before + after, '\n'))
  {
    FreeWithout(before, line, after);
    IgnoredLine(line);
    assert before + [] + after == before + after;
    MeaningAround(before, [line], after);
    MeaningAround(before, [], after);
  }

  lemma FreeWithout(before: seq<string>, line: string, after: seq<string>)
    requires Free(before + [line] + after, '\n')
    ensures Free(before + after, '\n')
  {
    forall i | 0 <= i < |before + after|
      ensures '\n' !in (before + after)[i]
    {
      assert (before + after)[i] == (before + [line] + after)[if i < |before| then i else i + 1];
    }
  }

  lemma IgnoredLine(line: string)
    requires var t := TrimSpace(line); t == "" || t[0] == '#' || t[0] == ';' || (t[0] != '[' && '=' !in t)
    ensures Meaningful(Lines([line])) == []
  {
  }

  /** A line "key = value": blanks before the key and around the '='. */
  function SpacedLine(pre: string, key: string, gap: string, val: string): string { pre + key + gap + "=" + val }

  /** A key of the table may be written in any case and with any blanks around it, on any line
      of the file. */
  lemma KeyInAnyCase<P>(before: seq<string>, pre1: string, k1: string, gap1: string,
          pre2: string, k2: string, gap2: string, val: string, after: seq<string>,
          parse: string -> Option<P>, everything: seq<P>)
    requires Lower(k1) == Lower(k2) && Lower(k1) in KEY_TABLE
    requires Blank(pre1) && Blank(gap1) && Blank(pre2) && Blank(gap2)
    requires Free(before + [SpacedLine(pre1, k1, gap1, val)] + after, '\n')
    requires Free(before + [SpacedLine(pre2, k2, gap2, val)] + after, '\n')
    ensures IniOf(Join(before + [SpacedLine(pre1, k1, gap1, val)] + after, '\n'), parse, everything)
            == IniOf(Join(before + [SpacedLine(pre2, k2, gap2, val)] + after, '\n'), parse, everything)
  {
    var one, two := SpacedLine(pre1, k1, gap1, val), SpacedLine(pre2, k2, gap2, val);
    TableKeyLine(pre1, k1, gap1, val);
    TableKeyLine(pre2, k2, gap2, val);
    SameLine(before, one, two, after, parse, everything);
  }

  lemma SameLine<P>(before: seq<string>, one: string, two: string, after: seq<string>,
          parse: string -> Option<P>, everything: seq<P>)
    requires Classify(one) == Classify(two)
    requires Free(before + [one] + after, '\n') && Free(before + [two] + after, '\n')
    ensures IniOf(Join(before + [one] + after, '\n'), parse, everything)
            == IniOf(Join(before + [two] + after, '\n'), parse, everything)
  {
    MeaningAround(before, [one], after);
    MeaningAround(before, [two], after);
    OnlyTheMeaningMatters(Join(before + [one] + after, '\n'), Join(before + [two] + after, '\n'), parse, everything);
  }

  lemma WgKeysArePlain(k: string)
    requires k in WG_KEY_TABLE
    ensures PlainKey(k)
  {
  }

  lemma AwgKeysArePlain(k: string)
    requires k in AWG_KEY_TABLE
    ensures PlainKey(k)
  {
  }

  lemma TableKeysArePlain(k: string)
    requires k in KEY_TABLE
    ensures PlainKey(k)
  {
    if k in WG_KEY_TABLE {
      WgKeysArePlain(k);
    } else {
      AwgKeysArePlain(k);
    }
  }

  lemma LettersOfKey(k: string)
    requires Lower(k) in KEY_TABLE
    ensures KeyText(k)
  {
    TableKeysArePlain(Lower(k));
    forall i | 0 <= i < |k|
      ensures KeyChar(k[i])
    {
      assert Lower(k)[i] == LowerChar(k[i]);
    }
  }

  lemma {:induction false} TrimRightKeepsFront(front: string, back: string)
    requires front != "" && !IsSpace(front[|front| - 1])
    ensures TrimRight(front + back) == front + TrimRight(back)
  {
    if back == "" {
      assert front + back == front;
    } else if IsSpace(back[|back| - 1]) {
      TrimRightKeepsFront(front, back[..|back| - 1]);
      assert (front + back)[..|front + back| - 1] == front + back[..|back| - 1];
    }
  }

  predicate KeyChar(c: char) { !IsSpace(c) && c != '=' && c != '#' && c != ';' && c != '[' }

  predicate KeyText(k: string) { k != "" && forall i :: 0 <= i < |k| ==> KeyChar(k[i]) }

  lemma TrimmedLine(pre: string, k: string, gap: string, val: string)
    requires KeyText(k) && Blank(pre) && Blank(gap)
    ensures TrimSpace(SpacedLine(pre, k, gap, val)) == k + gap + "=" + TrimRight(val)
  {
    var rest := k + gap + "=" + val;
    assert KeyChar(k[0]) && rest[0] == k[0];
    assert SpacedLine(pre, k, gap, val) == pre + rest;
    TrimLeftOfBlank(pre, rest);
    TrimRightKeepsFront(k + gap + "=", val);
  }

  lemma CutOfLine(k: string, gap: string, t: string)
    requires KeyText(k) && Blank(gap)
    ensures CutTrimmed(k + gap + "=" + t) == Entry(k, CutComment(TrimSpace(t)))
  {
    var line := k + gap + ['='] + t;
    assert KeyChar(k[0]) && line[0] == k[0];
    assert '=' !in k + gap by {
      assert !IsSpace('=') && !KeyChar('=');
    }
    IndexByteAt(k + gap, '=', t);
    TrimmedKey(k, gap);
  }

  lemma TrimmedKey(k: string, gap: string)
    requires KeyText(k) && Blank(gap)
    ensures TrimSpace(k + gap) == k
  {
    assert KeyChar(k[0]) && (k + gap)[0] == k[0];
    assert KeyChar(k[|k| - 1]);
    TrimRightOfBlank(k, gap);
  }

  lemma TableKeyLine(pre: string, k: string, gap: string, val: string)
    requires Lower(k) in KEY_TABLE && Blank(pre) && Blank(gap)
    ensures Classify(SpacedLine(pre, k, gap, val)) == Entry(KEY_TABLE[Lower(k)], CutComment(TrimSpace(TrimRight(val))))
  {
    LettersOfKey(k);
    TrimmedLine(pre, k, gap, val);
    CutOfLine(k, gap, TrimRight(val));
  }

  // ---- A comment after a value ----

  lemma {:induction false} TrimRightTrims(s: string)
    ensures TrimRight(s) == "" || !IsSpace(TrimRight(s)[|TrimRight(s)| - 1])
  {
    if s != "" && IsSpace(s[|s| - 1]) {
      TrimRightTrims(s[..|s| - 1]);
    }
  }

  lemma ValueAlone(pad: string, t: string)
    requires Blank(pad) && Trimmed(t)
    ensures TrimSpace(TrimRight(pad + t)) == t
  {
    assert pad + t == "" + pad + t && pad + t + "" == pad + t;
    if t == "" {
      TrimRightOfBlank("", pad);
      assert "" + pad == pad + t;
    } else {
      assert (pad + t)[|pad + t| - 1] == t[|t| - 1];
      TrimSpaceAround(pad, t, "");
    }
  }

  lemma CommentEnds(front: string, tail: string)
    ensures TrimRight(front + "#" + tail) == front + "#" + TrimRight(tail)
    ensures !IsSpace(("#" + TrimRight(tail))[|TrimRight(tail)|])
  {
    TrimRightKeepsFront(front + "#", tail);
    TrimRightTrims(tail);
  }

  lemma CommentIsCut(t: string, blank: string, tail: string)
    requires Trimmed(t) && '#' !in t && Blank(blank)
    ensures CutComment(t + blank + "#" + tail) == t
  {
    assert '#' !in t + blank;
    assert t + blank + "#" + tail == (t + blank) + ['#'] + tail;
    IndexByteAt(t + blank, '#', tail);
    TrimSpaceAround("", t, blank);
    assert "" + t + blank == t + blank;
  }

  lemma NoValueButComment(pad: string, blank: string, tail: string)
    requires Blank(pad) && Blank(blank)
    ensures CutComment(TrimSpace(TrimRight(pad + blank + "#" + tail))) == ""
  {
    var end := "#" + TrimRight(tail);
    CommentEnds(pad + blank, tail);
    assert pad + blank + "#" + TrimRight(tail) == (pad + blank) + end + "";
    TrimSpaceAround(pad + blank, end, "");
    CommentIsCut("", "", TrimRight(tail));
    assert "" + "" + "#" + TrimRight(tail) == end;
  }

  lemma TrimmedAround(pad: string, t: string, rest: string)
    requires Blank(pad) && t != "" && !IsSpace(t[0]) && rest != "" && !IsSpace(rest[|rest| - 1])
    ensures TrimSpace(pad + (t + rest)) == t + rest
  {
    assert (t + rest)[0] == t[0] && (t + rest)[|t + rest| - 1] == rest[|rest| - 1];
    TrimSpaceAround(pad, t + rest, "");
    assert pad + (t + rest) + "" == pad + (t + rest);
  }

  lemma RegroupComment(pad: string, t: string, blank: string, tail: string)
    ensures pad + t + blank + "#" + tail == pad + (t + (blank + ("#" + tail)))
    ensures t + blank + "#" + tail == t + (blank + ("#" + tail))
  {
  }

  lemma SomeValueAndComment(pad: string, t: string, blank: string, tail: string)
    requires Blank(pad) && Trimmed(t) && t != "" && '#' !in t && Blank(blank)
    ensures CutComment(TrimSpace(TrimRight(pad + t + blank + "#" + tail))) == t
  {
    var kept := TrimRight(tail);
    CommentEnds(pad + t + blank, tail);
    RegroupComment(pad, t, blank, kept);
    CommentIsCut(t, blank, kept);
    LastOfTwo(blank, "#" + kept);
    TrimmedAround(pad, t, blank + ("#" + kept));
  }

  lemma LastOfTwo(a: string, b: string)
    requires b != ""
    ensures (a + b)[|a + b| - 1] == b[|b| - 1]
  {
  }

  lemma ValueAndComment(pad: string, t: string, blank: string, tail: string)
    requires Blank(pad) && Trimmed(t) && '#' !in t && Blank(blank)
    ensures CutComment(TrimSpace(TrimRight(pad + t + blank + "#" + tail))) == t
  {
    if t == "" {
      NoValueButComment(pad, blank, tail);
      assert pad + t + blank == pad + blank;
    } else {
      SomeValueAndComment(pad, t, blank, tail);
    }
  }

  /** A comment may follow the value of a key of the table, on any line of the file. */
  lemma CommentAfterValue<P>(before: seq<string>, start: string, k: string, gap: string, pad: string, t: string,
          blank: string, tail: string, after: seq<string>, parse: string -> Option<P>, everything: seq<P>)
    requires Lower(k) in KEY_TABLE && Blank(start) && Blank(gap) && Blank(pad) && Blank(blank)
    requires Trimmed(t) && '#' !in t
    requires Free(before + [SpacedLine(start, k, gap, pad + t)] + after, '\n')
    requires Free(before + [SpacedLine(start, k, gap, pad + t + blank + "#" + tail)] + after, '\n')
    ensures var plain := SpacedLine(start, k, gap, pad + t);
            var noted := SpacedLine(start, k, gap, pad + t + blank + "#" + tail);
            IniOf(Join(before + [noted] + after, '\n'), parse, everything)
            == IniOf(Join(before + [plain] + after, '\n'), parse, everything)
  {
    var plain, noted := pad + t, pad + t + blank + "#" + tail;
    TableKeyLine(start, k, gap, plain);
    TableKeyLine(start, k, gap, noted);
    ValueAlone(pad, t);
    ValueAndComment(pad, t, blank, tail);
    SameLine(before, SpacedLine(start, k, gap, noted), SpacedLine(start, k, gap, plain), after, parse, everything);
  }

  // ---- Peers are blocks ----

  datatype Setting = Setting(key: string, value: string)

  /** A section as it stands in the file: its header's name and its entries. */
  datatype Block = Block(section: string, entries: seq<Setting>)

  function EntriesOf(lines: seq<Line>): seq<Setting> {
    if lines == [] || lines[0].Header? then []
    else (if lines[0].Entry? then [Setting(lines[0].key, lines[0].value)] else []) + EntriesOf(lines[1..])
  }

  function AfterEntries(lines: seq<Line>): (rest: seq<Line>)
    ensures |rest| <= |lines| && (rest != [] ==> rest[0].Header?)
  {
    if lines == [] || lines[0].Header? then lines else AfterEntries(lines[1..])
  }

  /** The blocks after the current one: the file is cut at its headers. */
  function BlocksAfter(lines: seq<Line>): seq<Block>
    decreases |lines|
  {
    var rest := AfterEntries(lines);
    if rest == [] then [] else [Block(rest[0].section, EntriesOf(rest[1..]))] + BlocksAfter(rest[1..])
  }

  function PeerBlocks(bs: seq<Block>): seq<Block> {
    if bs == [] then []
    else (if bs[0].section == "peer" && bs[0].entries != [] then [bs[0]] else []) + PeerBlocks(bs[1..])
  }

  /** The [Peer] blocks of a file that hold a key line, in order. */
  function PeerBlocksOf(content: string): seq<Block> { PeerBlocks(BlocksAfter(Lines(Split(content, '\n')))) }

  /** Settings applied to a peer, one after the other. */
  function Apply<I, Q>(p: Q, settings: seq<Setting>, rules: Rules<I, Q>): Result<Q, Failure>
    decreases |settings|
  {
    if settings == [] then Ok(p)
    else
      match rules.setPeer(p, settings[0].key, settings[0].value)
      case Ok(q) => Apply(q, settings[1..], rules)
      case Err(e) => Err(e)
  }

  /** The peer that a block makes on its own. */
  function PeerOf<P>(b: Block, parse: string -> Option<P>, everything: seq<P>): Result<Peer<P>, Failure> {
    match Apply(EmptyPeer(), b.entries, RulesFor(parse)) case Ok(p) => FinishPeer(p, everything) case Err(e) => Err(e)
  }

  function Oks<Q>(ps: seq<Q>): (r: seq<Result<Q, Failure>>)
    ensures |r| == |ps|
  {
    seq(|ps|, i requires 0 <= i < |ps| => Ok(ps[i]))
  }

  function ApplyAll<I, Q>(bs: seq<Block>, rules: Rules<I, Q>): (r: seq<Result<Q, Failure>>)
    ensures |r| == |bs|
  {
    seq(|bs|, i requires 0 <= i < |bs| => Apply(rules.noPeer, bs[i].entries, rules))
  }

  /** What the rest of the current block makes of the peer at hand, if there is to be one. */
  function CurrentPeer<I, Q>(s: State<I, Q>, lines: seq<Line>, rules: Rules<I, Q>): seq<Result<Q, Failure>> {
    if s.section == "peer" && (s.havePeer || EntriesOf(lines) != []) then [Apply(s.peer, EntriesOf(lines), rules)]
            else []
  }

  ghost predicate Coherent<I, Q>(s: State<I, Q>, rules: Rules<I, Q>) {
    (s.havePeer ==> s.section == "peer") && (!s.havePeer ==> s.peer == rules.noPeer)
  }

  function PeersFrom<I, Q>(s: State<I, Q>, lines: seq<Line>, rules: Rules<I, Q>): seq<Result<Q, Failure>> {
    Oks(s.peers) + CurrentPeer(s, lines, rules) + ApplyAll(PeerBlocks(BlocksAfter(lines)), rules)
  }

  lemma HeaderStep<I, Q>(s: State<I, Q>, lines: seq<Line>, rules: Rules<I, Q>)
    requires lines != [] && lines[0].Header? && Coherent(s, rules)
    ensures var t := Flush(s, rules).(section := lines[0].section);
            Coherent(t, rules) && PeersFrom(s, lines, rules) == PeersFrom(t, lines[1..], rules)
  {
  }

  lemma EntryStep<I, Q>(s: State<I, Q>, lines: seq<Line>, rules: Rules<I, Q>)
    requires lines != [] && lines[0].Entry? && Coherent(s, rules) && Step(s, lines[0], rules).Ok?
    ensures var t := Step(s, lines[0], rules).value;
            Coherent(t, rules) && PeersFrom(s, lines, rules) == PeersFrom(t, lines[1..], rules)
  {
  }

  lemma NothingStep<I, Q>(s: State<I, Q>, lines: seq<Line>, rules: Rules<I, Q>)
    requires lines != [] && lines[0].Nothing?
    ensures PeersFrom(s, lines, rules) == PeersFrom(s, lines[1..], rules)
  {
    assert EntriesOf(lines) == EntriesOf(lines[1..]);
  }

  lemma {:induction false} RunMakesPeers<I, Q>(s: State<I, Q>, lines: seq<Line>, rules: Rules<I, Q>)
    requires Coherent(s, rules) && Run(s, lines, rules).Ok?
    ensures Oks(Flush(Run(s, lines, rules).value, rules).peers) == PeersFrom(s, lines, rules)
    decreases |lines|
  {
    if lines == [] {
      assert PeerBlocks(BlocksAfter(lines)) == [];
    } else {
      match lines[0] {
        case Nothing => NothingStep(s, lines, rules);
        case Header(_) => HeaderStep(s, lines, rules);
        case Entry(_, _) => EntryStep(s, lines, rules);
      }
      RunMakesPeers(Step(s, lines[0], rules).value, lines[1..], rules);
    }
  }

  lemma {:induction false} FinishedEach<P>(ps: seq<Peer<P>>, everything: seq<P>)
    requires FinishPeers(ps, everything).Ok?
    ensures |FinishPeers(ps, everything).value| == |ps|
    ensures forall i :: 0 <= i < |ps| ==> FinishPeer(ps[i], everything) == Ok(FinishPeers(ps, everything).value[i])
  {
    if ps != [] {
      FinishedEach(ps[1..], everything);
    }
  }

  lemma RawPeers<P>(lines: seq<Line>, parse: string -> Option<P>)
    requires Run(Start(), lines, RulesFor(parse)).Ok?
    ensures var raw := Flush(Run(Start(), lines, RulesFor(parse)).value, RulesFor(parse)).peers;
            Oks(raw) == ApplyAll(PeerBlocks(BlocksAfter(lines)), RulesFor(parse))
  {
    RunMakesPeers(Start(), lines, RulesFor(parse));
  }

  lemma OfRawPeers<P>(raw: seq<Peer<P>>, blocks: seq<Block>, parse: string -> Option<P>, everything: seq<P>)
    requires Oks(raw) == ApplyAll(blocks, RulesFor(parse))
    ensures |raw| == |blocks|
    ensures forall i :: 0 <= i < |raw| ==> PeerOf(blocks[i], parse, everything) == FinishPeer(raw[i], everything)
  {
    forall i | 0 <= i < |raw|
      ensures PeerOf(blocks[i], parse, everything) == FinishPeer(raw[i], everything)
    {
      assert Oks(raw)[i] == ApplyAll(blocks, RulesFor(parse))[i];
    }
  }

  lemma FinishedPeers<P>(i: Interface<P>, peers: seq<Peer<P>>, everything: seq<P>)
    requires Total(i.obfuscation) && Finish(i, peers, everything).Ok?
    ensures FinishPeers(peers, everything) == Ok(Finish(i, peers, everything).value.peers)
  {
  }

  /** The peers of an accepted file are its [Peer] blocks with a key line, in file order, each
      made of its own block only. */
  lemma PeersAreTheBlocks<P>(content: string, parse: string -> Option<P>, everything: seq<P>)
    requires IniOf(content, parse, everything).Ok?
    ensures var peers, blocks := IniOf(content, parse, everything).value.peers, PeerBlocksOf(content);
            && |peers| == |blocks|
            && forall i :: 0 <= i < |peers| ==> PeerOf(blocks[i], parse, everything) == Ok(peers[i])
  {
    var lines, blocks := Lines(Split(content, '\n')), PeerBlocksOf(content);
    var s := Run(Start(), lines, RulesFor(parse)).value;
    var raw := Flush(s, RulesFor(parse)).peers;
    RunStaysTotal(Start(), lines, parse);
    RawPeers(lines, parse);
    OfRawPeers(raw, blocks, parse, everything);
    FinishedPeers(s.iface, raw, everything);
    FinishedEach(raw, everything);
  }
}
