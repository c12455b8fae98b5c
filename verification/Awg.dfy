/**
 WireGuard and AmneziaWG endpoints, and the checks that the link parser and the INI parser of
 xray2sing/ray2sing/awg.go share. What a netip prefix is stays open: `P` is its type and
 `parse` reads an address or a prefix.
 */
module Awg {
  import opened Common
  import opened GoStrings
  import opened ObfGrammar

  const NUMBER_KEYS: set<string> := {"jc", "jmin", "jmax", "s1", "s2", "s3", "s4", "itime"}
  const HEADER_KEYS: set<string> := {"h1", "h2", "h3", "h4"}
  const SPEC_KEYS: set<string> := {"i1", "i2", "i3", "i4", "i5"}
  const JUNK_KEYS: set<string> := {"j1", "j2", "j3"}
  const TEXT_KEYS: set<string> := HEADER_KEYS + SPEC_KEYS + JUNK_KEYS

  /** The AmneziaWG parameters by name; 0 and "" stand for absent ones. */
  datatype Obfuscation = Obfuscation(numbers: map<string, int>, texts: map<string, string>)

  predicate Total(o: Obfuscation) { o.numbers.Keys == NUMBER_KEYS && o.texts.Keys == TEXT_KEYS }

  datatype Peer<P> = Peer(address: string, port: nat, publicKey: string, presharedKey: string, allowedIPs: seq<P>,
                          keepalive: nat, reserved: seq<nat>)

  datatype Endpoint<P> =
    | WireGuard(tag: string, privateKey: string, addresses: seq<P>, mtu: nat, workers: int, peers: seq<Peer<P>>)
    | AmneziaWG(tag: string, privateKey: string, addresses: seq<P>, mtu: nat, obfuscation: Obfuscation,
                peers: seq<Peer<P>>)

  datatype Failure =
    | BadUrl | NoParameters | BadAddress | BadReserved | BadEndpoint | BadKey | BadHeader | BadSpec
    | MissingPrivateKey | MissingPublicKey | MissingEndpoint

  // ---- Numbers ----

  /** The smallest value the runtime takes. */
  function Minimum(key: string): int { if key == "jc" || key == "jmin" || key == "jmax" then 1 else 0 }

  /** clampAwgInt: a value below the minimum is dropped. */
  function Clamp(v: int, min: int): int { if v != 0 && v < min then 0 else v }

  function Clamped(numbers: map<string, int>): map<string, int> {
    map k | k in numbers :: Clamp(numbers[k], Minimum(k))
  }

  const TWO_TO_64: int := 0x1_0000_0000_0000_0000

  function Total8(n: map<string, int>): int
    requires n.Keys == NUMBER_KEYS
  {
    n["jc"] + n["jmin"] + n["jmax"] + n["s1"] + n["s2"] + n["s3"] + n["s4"] + n["itime"]
  }

  /** The sum of eight int64s, compared with zero after wrapping around. */
  predicate SumIsZero(n: map<string, int>)
    requires n.Keys == NUMBER_KEYS
  {
    Total8(n) % TWO_TO_64 == 0
  }

  predicate NoTexts(o: Obfuscation) { forall k :: k in o.texts ==> o.texts[k] == "" }

  /** The parsers' test for a plain WireGuard endpoint. */
  predicate LooksPlain(o: Obfuscation)
    requires Total(o)
  {
    SumIsZero(o.numbers) && NoTexts(o)
  }

  function Uint16(n: int): nat { n % 0x1_0000 }

  // ---- Texts ----

  predicate HeadersOk(o: Obfuscation)
    requires Total(o)
  {
    forall k :: k in HEADER_KEYS ==> MagicHeaderOk(o.texts[k])
  }

  predicate SpecsOk(o: Obfuscation)
    requires Total(o)
  {
    forall k :: k in SPEC_KEYS ==> ObfSpecOk(o.texts[k])
  }

  // ---- Lists ----

  /** Every part through parseAddrOrPrefix; None when one of them fails. */
  function ParseAll<P>(parts: seq<string>, parse: string -> Option<P>): Option<seq<P>> {
    if parts == [] then Some([])
    else
      match (parse(TrimSpace(parts[0])), ParseAll(parts[1..], parse))
      case (Some(p), Some(ps)) => Some([p] + ps)
      case _ => None
  }

  function NonBlank(parts: seq<string>): seq<string> {
    if parts == [] then []
    else (if TrimSpace(parts[0]) == "" then [] else [parts[0]]) + NonBlank(parts[1..])
  }

  function ParseBytes(parts: seq<string>): Option<seq<nat>> {
    if parts == [] then Some([])
    else
      match (ParseUint(TrimSpace(parts[0]), 256), ParseBytes(parts[1..]))
      case (Some(n), Some(ns)) => Some([n] + ns)
      case _ => None
  }

  const RESERVED_BYTES := 3

  predicate ReservedCount(n: nat) { n == 0 || n == RESERVED_BYTES }

  /** parseReservedList: three bytes or none. */
  function ParseReservedList(raw: string): Option<seq<nat>> {
    match ParseBytes(NonBlank(Split(raw, ',')))
    case Some(ns) => if ReservedCount(|ns|) then Some(ns) else None
    case None => None
  }
}
