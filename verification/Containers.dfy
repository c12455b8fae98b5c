/**
 JSON containers (xray2sing/ray2sing/json_ingest.go): the one walk over a container's entries,
 and its two consumers, the share-link records of ConvertToShareLinks and the links that the
 connect path parses. JSON itself stays open: `J` is a raw value, and a Codec says what the
 decoders and transcoders make of one.
 */
module Containers {
  import opened Common
  import opened GoStrings

  /** The wrapper shapes: Xray and sing-box configs, SIP008 lists, Happ's named nodes. */
  datatype Container<J> = Container(outbounds: seq<J>, endpoints: seq<J>, servers: seq<J>,
                                     remarks: string, remark: string)

  datatype Probe = Probe(protocol: string, kind: string, cipher: string, server: string)

  datatype Codec<!J> = Codec(
    container: J -> Option<Container<J>>,
    probe: J -> Option<Probe>,
    entryUri: J -> Option<string>,
    endpointUri: J -> Option<string>,
    renameUri: (string, string) -> string,
    minify: (J, string) -> Option<string>)

  /** A body by its first byte; None where the array does not decode. */
  datatype Body<J> = NoJson | Array(items: Option<seq<J>>) | Object(raw: J)

  datatype Entry<J> = Entry(raw: J, isEndpoint: bool, rename: string)

  // ---- Which values are nodes ----

  const XRAY_LOCALS: set<string> := {"freedom", "blackhole", "dns", "loopback", "dokodemo-door"}
  const SINGBOX_LOCALS: set<string> := {"selector", "urltest", "loadbalance", "direct", "block", "dns"}

  predicate IsNode<J>(raw: J, isEndpoint: bool, codec: Codec<J>) {
    || isEndpoint
    || match codec.probe(raw)
       case None => false
       case Some(p) =>
         if p.protocol != "" then Lower(p.protocol) !in XRAY_LOCALS
         else if p.kind != "" then Lower(p.kind) !in SINGBOX_LOCALS
         else p.cipher != "" && p.server != ""
  }

  // ---- The walk ----

  function Entries<J>(raws: seq<J>, isEndpoint: bool): (es: seq<Entry<J>>)
    ensures |es| == |raws|
  {
    seq(|raws|, i requires 0 <= i < |raws| => Entry(raws[i], isEndpoint, ""))
  }

  function NodeName<J>(c: Container<J>): string { OrDefault(c.remarks, c.remark) }

  predicate IsWrapper<J>(c: Container<J>) {
    c.outbounds != [] || c.servers != [] || c.endpoints != [] || NodeName(c) != ""
  }

  predicate IsNamedNode<J>(c: Container<J>) { NodeName(c) != "" && c.outbounds != [] }

  function FirstUri<J>(raws: seq<J>, codec: Codec<J>): (i: nat)
    ensures i <= |raws| && (i < |raws| ==> codec.entryUri(raws[i]).Some?)
    ensures forall j :: 0 <= j < i ==> codec.entryUri(raws[j]).None?
  {
    if raws == [] || codec.entryUri(raws[0]).Some? then 0 else 1 + FirstUri(raws[1..], codec)
  }

  function FirstNode<J>(raws: seq<J>, codec: Codec<J>): (i: nat)
    ensures i <= |raws| && (i < |raws| ==> IsNode(raws[i], false, codec))
    ensures forall j :: 0 <= j < i ==> !IsNode(raws[j], false, codec)
  {
    if raws == [] || IsNode(raws[0], false, codec) then 0 else 1 + FirstNode(raws[1..], codec)
  }

  /** A named node: its first outbound with a link, else its first node, else nothing. */
  function NamedEntry<J>(c: Container<J>, codec: Codec<J>): seq<Entry<J>> {
    var obs := c.outbounds;
    if FirstUri(obs, codec) < |obs| then [Entry(obs[FirstUri(obs, codec)], false, NodeName(c))]
    else if FirstNode(obs, codec) < |obs| then [Entry(obs[FirstNode(obs, codec)], false, NodeName(c))]
    else []
  }

  function WrapperEntries<J>(c: Container<J>, codec: Codec<J>): seq<Entry<J>> {
    if IsNamedNode(c) then NamedEntry(c, codec)
    else Entries(c.outbounds, false) + Entries(c.servers, false) + Entries(c.endpoints, true)
  }

  /** The entries of one value: a wrapper's, or the value itself. */
  function ItemEntries<J>(raw: J, codec: Codec<J>): seq<Entry<J>> {
    match codec.container(raw)
    case Some(c) => if IsWrapper(c) then WrapperEntries(c, codec) else [Entry(raw, false, "")]
    case None => [Entry(raw, false, "")]
  }

  function AllEntries<J>(items: seq<J>, codec: Codec<J>): seq<Entry<J>> {
    if items == [] then [] else AllEntries(items[..|items| - 1], codec) + ItemEntries(items[|items| - 1], codec)
  }

  function BodyEntries<J>(body: Body<J>, codec: Codec<J>): seq<Entry<J>> {
    match body
    case NoJson => []
    case Array(None) => []
    case Array(Some(items)) => AllEntries(items, codec)
    case Object(raw) => ItemEntries(raw, codec)
  }

  /** entriesFromContainerObject: None when the value is no wrapper. */
  method EntriesFromContainerObject<J(==)>(raw: J, codec: Codec<J>) returns (r: Option<seq<Entry<J>>>)
    ensures r == match codec.container(raw)
                 case Some(c) => if IsWrapper(c) then Some(WrapperEntries(c, codec)) else None
                 case None => None
  {
    var decoded := codec.container(raw);
    if decoded.None? || !IsWrapper(decoded.value) {
      return None;
    }
    var c := decoded.value;
    var name := NodeName(c);
    if name != "" && c.outbounds != [] {
      var firstNode: Option<J> := None;
      for i := 0 to |c.outbounds|
        invariant FirstUri(c.outbounds, codec) >= i
        invariant firstNode
                  == if FirstNode(c.outbounds, codec) < i then Some(c.outbounds[FirstNode(c.outbounds, codec)])
                     else None
      {
        var ob := c.outbounds[i];
        if codec.entryUri(ob).Some? {
          assert FirstUri(c.outbounds, codec) == i;
          return Some([Entry(ob, false, name)]);
        }
        if firstNode.None? && IsNode(ob, false, codec) {
          firstNode := Some(ob);
        }
      }
      if firstNode.Some? {
        return Some([Entry(firstNode.value, false, name)]);
      }
      return Some([]);
    }
    r := Some(Entries(c.outbounds, false) + Entries(c.servers, false) + Entries(c.endpoints, true));
  }

  /** collectContainerEntries: None when nothing was found. */
  method CollectContainerEntries<J(==, !new)>(body: Body<J>, codec: Codec<J>) returns (r: Option<seq<Entry<J>>>)
    ensures r == if BodyEntries(body, codec) == [] then None else Some(BodyEntries(body, codec))
    ensures r != Some([]) && BodyGives(body, if r.Some? then r.value else [], codec)
  {
    var entries: seq<Entry<J>> := [];
    match body {
      case NoJson =>
      case Array(None) =>
      case Array(Some(items)) =>
        for i := 0 to |items|
          invariant entries == AllEntries(items[..i], codec)
        {
          assert items[..i + 1][..i] == items[..i];
          var added := EntriesFromContainerObject(items[i], codec);
          entries := entries + match added case Some(es) => es case None => [Entry(items[i], false, "")];
        }
        assert items[..|items|] == items;
      case Object(raw) =>
        var added := EntriesFromContainerObject(raw, codec);
        entries := match added case Some(es) => es case None => [Entry(raw, false, "")];
    }
    BodyGivesItsEntries(body, codec);
    r := if entries == [] then None else Some(entries);
  }

  // ---- What a body gives, in the decoders' own terms ----

  function Flat<T>(parts: seq<seq<T>>): seq<T> {
    if parts == [] then [] else Flat(parts[..|parts| - 1]) + parts[|parts| - 1]
  }

  function Somes<T>(os: seq<Option<T>>): seq<T> {
    if os == [] then []
    else Somes(os[..|os| - 1]) + match os[|os| - 1] case Some(x) => [x] case None => []
  }

  /** The first position for which a predicate holds. */
  ghost predicate IsFirst<J>(raws: seq<J>, i: nat, p: J -> bool) {
    i < |raws| && p(raws[i]) && forall j :: 0 <= j < i ==> !p(raws[j])
  }

  /** What one item gives. No wrapper: itself. A node with a name: its first outbound with a link,
      else its first node, under the name. Any other wrapper: all its values. */
  ghost predicate ItemGives<J(!new)>(raw: J, es: seq<Entry<J>>, codec: Codec<J>) {
    match codec.container(raw)
    case None => es == [Entry(raw, false, "")]
    case Some(Container(outbounds, endpoints, servers, remarks, remark)) =>
      var name := if remarks != "" then remarks else remark;
      if outbounds == [] && servers == [] && endpoints == [] && name == "" then es == [Entry(raw, false, "")]
      else if outbounds != [] && name != "" then NamedGives(outbounds, name, es, codec)
      else ValuesGive(outbounds, servers, endpoints, es)
  }

  ghost predicate ValuesGive<J>(outbounds: seq<J>, servers: seq<J>, endpoints: seq<J>, es: seq<Entry<J>>) {
    var n, m := |outbounds|, |outbounds| + |servers|;
    && |es| == m + |endpoints|
    && (forall i :: 0 <= i < |outbounds| ==> es[i] == Entry(outbounds[i], false, ""))
    && (forall i :: 0 <= i < |servers| ==> es[n + i] == Entry(servers[i], false, ""))
    && (forall i :: 0 <= i < |endpoints| ==> es[m + i] == Entry(endpoints[i], true, ""))
  }

  ghost predicate NamedGives<J(!new)>(obs: seq<J>, name: string, es: seq<Entry<J>>, codec: Codec<J>) {
    var linked, node := ob => codec.entryUri(ob).Some?, ob => OutboundIsNode(ob, codec);
    if exists ob :: ob in obs && linked(ob) then
      exists i: nat :: IsFirst(obs, i, linked) && es == [Entry(obs[i], false, name)]
    else if exists ob :: ob in obs && node(ob) then
      exists i: nat :: IsFirst(obs, i, node) && es == [Entry(obs[i], false, name)]
    else es == []
  }

  /** A server by its protocol or type, or a Shadowsocks server object, and none of the groups and
      local outbounds. */
  predicate OutboundIsNode<J>(raw: J, codec: Codec<J>) {
    match codec.probe(raw)
    case None => false
    case Some(Probe(protocol, kind, cipher, server)) =>
      var x, s := Lower(protocol), Lower(kind);
      if protocol != "" then
        x != "freedom" && x != "blackhole" && x != "dns" && x != "loopback" && x != "dokodemo-door"
      else if kind != "" then
        && s != "selector" && s != "urltest" && s != "loadbalance" && s != "direct" && s != "block" && s != "dns"
      else cipher != "" && server != ""
  }

  lemma NodesAsProbed<J>(raw: J, codec: Codec<J>)
    ensures IsNode(raw, false, codec) == OutboundIsNode(raw, codec) && IsNode(raw, true, codec)
  {
  }

  ghost predicate BodyGives<J(!new)>(body: Body<J>, es: seq<Entry<J>>, codec: Codec<J>) {
    match body
    case NoJson => es == []
    case Array(None) => es == []
    case Array(Some(items)) => exists parts :: ItemsGive(items, parts, codec) && es == Flat(parts)
    case Object(raw) => ItemGives(raw, es, codec)
  }

  /** Item by item. */
  ghost predicate ItemsGive<J(!new)>(items: seq<J>, parts: seq<seq<Entry<J>>>, codec: Codec<J>) {
    |parts| == |items| && forall i :: 0 <= i < |items| ==> ItemGives(items[i], parts[i], codec)
  }

  /** The record of an entry: its link under the entry's name, else a node's own JSON, else none. */
  predicate GivesRecord<J>(e: Entry<J>, r: Option<string>, codec: Codec<J>) {
    match if e.isEndpoint then codec.endpointUri(e.raw) else codec.entryUri(e.raw)
    case Some(uri) => r == Some(if e.rename == "" then uri else codec.renameUri(uri, e.rename))
    case None =>
      if e.isEndpoint || OutboundIsNode(e.raw, codec) then r == codec.minify(e.raw, e.rename) else r == None
  }

  /** The link of an entry for the connect path: endpoints have none there. */
  predicate GivesLink<J>(e: Entry<J>, r: Option<string>, codec: Codec<J>) {
    if e.isEndpoint then r == None
    else match codec.entryUri(e.raw)
         case Some(uri) => r == Some(if e.rename == "" then uri else codec.renameUri(uri, e.rename))
         case None => r == None
  }

  ghost predicate RecordsGiven<J(!new)>(body: Body<J>, es: seq<Entry<J>>, rs: seq<Option<string>>, codec: Codec<J>) {
    BodyGives(body, es, codec) && |rs| == |es| && forall i :: 0 <= i < |es| ==> GivesRecord(es[i], rs[i], codec)
  }

  ghost predicate LinksGiven<J(!new)>(body: Body<J>, es: seq<Entry<J>>, rs: seq<Option<string>>, codec: Codec<J>) {
    BodyGives(body, es, codec) && |rs| == |es| && forall i :: 0 <= i < |es| ==> GivesLink(es[i], rs[i], codec)
  }

  lemma WrapperGives<J(!new)>(raw: J, codec: Codec<J>)
    ensures ItemGives(raw, ItemEntries(raw, codec), codec)
  {
    if codec.container(raw).Some? {
      var c := codec.container(raw).value;
      AllValuesGive(c);
      if c.outbounds != [] {
        NamedEntryGives(c, codec);
      }
    }
  }

  lemma AllValuesGive<J>(c: Container<J>)
    ensures ValuesGive(c.outbounds, c.servers, c.endpoints,
                       Entries(c.outbounds, false) + Entries(c.servers, false) + Entries(c.endpoints, true))
  {
  }

  lemma NamedEntryGives<J(!new)>(c: Container<J>, codec: Codec<J>)
    ensures NamedGives(c.outbounds, NodeName(c), NamedEntry(c, codec), codec)
  {
    var obs := c.outbounds;
    forall ob
      ensures IsNode(ob, false, codec) == OutboundIsNode(ob, codec)
    {
      NodesAsProbed(ob, codec);
    }
    var linked, node := ob => codec.entryUri(ob).Some?, ob => OutboundIsNode(ob, codec);
    var i, j := FirstUri(obs, codec), FirstNode(obs, codec);
    if i < |obs| {
      assert obs[i] in obs && IsFirst(obs, i, linked);
    } else if j < |obs| {
      assert obs[j] in obs && IsFirst(obs, j, node);
    }
  }

  function Parts<J>(items: seq<J>, codec: Codec<J>): (parts: seq<seq<Entry<J>>>)
    ensures |parts| == |items|
  {
    seq(|items|, i requires 0 <= i < |items| => ItemEntries(items[i], codec))
  }

  lemma {:induction false} AllEntriesAreFlat<J>(items: seq<J>, codec: Codec<J>)
    ensures AllEntries(items, codec) == Flat(Parts(items, codec))
  {
    if items != [] {
      var n := |items| - 1;
      AllEntriesAreFlat(items[..n], codec);
      assert Parts(items, codec)[..n] == Parts(items[..n], codec);
    }
  }

  /** The entries of every body, in the decoders' terms: a bare item is an entry itself. */
  lemma BodyGivesItsEntries<J(!new)>(body: Body<J>, codec: Codec<J>)
    ensures BodyGives(body, BodyEntries(body, codec), codec)
  {
    match body
    case Array(Some(items)) =>
      forall i | 0 <= i < |items|
        ensures ItemGives(items[i], Parts(items, codec)[i], codec)
      {
        WrapperGives(items[i], codec);
      }
      AllEntriesAreFlat(items, codec);
      assert ItemsGive(items, Parts(items, codec), codec);
    case Object(raw) => WrapperGives(raw, codec);
    case _ =>
  }

  // ---- The two consumers ----

  function Renamed<J>(uri: string, e: Entry<J>, codec: Codec<J>): string {
    if e.rename != "" then codec.renameUri(uri, e.rename) else uri
  }

  function ToUri<J>(e: Entry<J>, codec: Codec<J>): Option<string> {
    match if e.isEndpoint then codec.endpointUri(e.raw) else codec.entryUri(e.raw)
    case Some(uri) => Some(Renamed(uri, e, codec))
    case None => None
  }

  /** The link if there is one, else the node's own JSON, else nothing. */
  function ToRecord<J>(e: Entry<J>, codec: Codec<J>): Option<string> {
    if ToUri(e, codec).Some? then ToUri(e, codec)
    else if IsNode(e.raw, e.isEndpoint, codec) then codec.minify(e.raw, e.rename)
    else None
  }

  function Records<J>(es: seq<Entry<J>>, codec: Codec<J>): seq<string> {
    if es == [] then []
    else
      var n := |es| - 1;
      Records(es[..n], codec) + match ToRecord(es[n], codec) case Some(r) => [r] case None => []
  }

  predicate IsLink<J>(e: Entry<J>, codec: Codec<J>) { !e.isEndpoint && ToUri(e, codec).Some? }

  function Links<J>(es: seq<Entry<J>>, codec: Codec<J>): seq<string> {
    if es == [] then []
    else
      var n := |es| - 1;
      Links(es[..n], codec) + if IsLink(es[n], codec) then [ToUri(es[n], codec).value] else []
  }

  function RecordsOf<J>(es: seq<Entry<J>>, codec: Codec<J>): (rs: seq<Option<string>>)
    ensures |rs| == |es|
  {
    seq(|es|, i requires 0 <= i < |es| => ToRecord(es[i], codec))
  }

  function LinksOf<J>(es: seq<Entry<J>>, codec: Codec<J>): (rs: seq<Option<string>>)
    ensures |rs| == |es|
  {
    seq(|es|, i requires 0 <= i < |es| => if es[i].isEndpoint then None else ToUri(es[i], codec))
  }

  lemma {:induction false} RecordsAreSomes<J>(es: seq<Entry<J>>, codec: Codec<J>)
    ensures Records(es, codec) == Somes(RecordsOf(es, codec)) && Links(es, codec) == Somes(LinksOf(es, codec))
  {
    if es != [] {
      var n := |es| - 1;
      RecordsAreSomes(es[..n], codec);
      assert RecordsOf(es, codec)[..n] == RecordsOf(es[..n], codec);
      assert LinksOf(es, codec)[..n] == LinksOf(es[..n], codec);
    }
  }

  lemma RecordIsGiven<J>(e: Entry<J>, codec: Codec<J>)
    ensures GivesRecord(e, ToRecord(e, codec), codec)
    ensures GivesLink(e, if e.isEndpoint then None else ToUri(e, codec), codec)
  {
    NodesAsProbed(e.raw, codec);
  }

  lemma RecordsAreGiven<J(!new)>(body: Body<J>, codec: Codec<J>)
    ensures var es := BodyEntries(body, codec);
            RecordsGiven(body, es, RecordsOf(es, codec), codec) && Records(es, codec) == Somes(RecordsOf(es, codec))
  {
    var es := BodyEntries(body, codec);
    BodyGivesItsEntries(body, codec);
    RecordsAreSomes(es, codec);
    forall i | 0 <= i < |es|
      ensures GivesRecord(es[i], RecordsOf(es, codec)[i], codec)
    {
      RecordIsGiven(es[i], codec);
    }
  }

  lemma LinksAreGiven<J(!new)>(body: Body<J>, codec: Codec<J>)
    ensures var es := BodyEntries(body, codec);
            LinksGiven(body, es, LinksOf(es, codec), codec) && Links(es, codec) == Somes(LinksOf(es, codec))
  {
    var es := BodyEntries(body, codec);
    BodyGivesItsEntries(body, codec);
    RecordsAreSomes(es, codec);
    forall i | 0 <= i < |es|
      ensures GivesLink(es[i], LinksOf(es, codec)[i], codec)
    {
      RecordIsGiven(es[i], codec);
    }
  }

  /** An array of values that are no wrappers, each with a link. */
  predicate IsBareArray<J>(body: Body<J>, uris: seq<string>, codec: Codec<J>) {
    && body.Array? && body.items.Some? && |body.items.value| == |uris|
    && forall i :: 0 <= i < |uris| ==> IsBare(body.items.value[i], uris[i], codec)
  }

  predicate NoWrapper<J>(c: Container<J>) {
    c.outbounds == [] && c.servers == [] && c.endpoints == [] && c.remarks == "" && c.remark == ""
  }

  predicate IsBare<J>(raw: J, uri: string, codec: Codec<J>) {
    && codec.entryUri(raw) == Some(uri)
    && (codec.container(raw).Some? ==> NoWrapper(codec.container(raw).value))
  }

  lemma BareItem<J>(raw: J, uri: string, codec: Codec<J>)
    requires IsBare(raw, uri, codec)
    ensures ItemEntries(raw, codec) == [Entry(raw, false, "")]
    ensures ToRecord(Entry(raw, false, ""), codec) == ToUri(Entry(raw, false, ""), codec) == Some(uri)
  {
  }

  lemma BareStep<J>(items: seq<J>, raw: J, uri: string, codec: Codec<J>)
    requires IsBare(raw, uri, codec)
    ensures AllEntries(items + [raw], codec) == AllEntries(items, codec) + [Entry(raw, false, "")]
    ensures Entries(items + [raw], false) == Entries(items, false) + [Entry(raw, false, "")]
  {
    assert (items + [raw])[..|items|] == items;
    BareItem(raw, uri, codec);
  }

  lemma {:induction false} BareEntries<J>(items: seq<J>, uris: seq<string>, codec: Codec<J>)
    requires |items| == |uris| && forall i :: 0 <= i < |uris| ==> IsBare(items[i], uris[i], codec)
    ensures AllEntries(items, codec) == Entries(items, false)
    decreases |items|
  {
    if items != [] {
      var n := |items| - 1;
      BareEntries(items[..n], uris[..n], codec);
      BareStep(items[..n], items[n], uris[n], codec);
      assert items == items[..n] + [items[n]];
    }
  }

  lemma {:induction false} SomesOfAll<T>(os: seq<Option<T>>, xs: seq<T>)
    requires |os| == |xs| && forall i :: 0 <= i < |os| ==> os[i] == Some(xs[i])
    ensures Somes(os) == xs
    decreases |os|
  {
    if os != [] {
      var n := |os| - 1;
      SomesOfAll(os[..n], xs[..n]);
      assert xs == xs[..n] + [xs[n]];
    }
  }

  lemma BareItems<J>(items: seq<J>, uris: seq<string>, codec: Codec<J>)
    requires |items| == |uris| && forall i :: 0 <= i < |uris| ==> IsBare(items[i], uris[i], codec)
    ensures AllEntries(items, codec) == Entries(items, false)
    ensures Records(Entries(items, false), codec) == uris && Links(Entries(items, false), codec) == uris
  {
    BareEntries(items, uris, codec);
    RecordsAreSomes(Entries(items, false), codec);
    forall i | 0 <= i < |items|
      ensures ToRecord(Entry(items[i], false, ""), codec) == ToUri(Entry(items[i], false, ""), codec) == Some(uris[i])
    {
      BareItem(items[i], uris[i], codec);
    }
    SomesOfAll(RecordsOf(Entries(items, false), codec), uris);
    SomesOfAll(LinksOf(Entries(items, false), codec), uris);
  }

  /** What convertJSONEntries answers for a body; in particular, a bare array of nodes with links
      gives exactly their links, in order. */
  ghost predicate ConvertGives<J(!new)>(body: Body<J>, r: Option<seq<string>>, codec: Codec<J>) {
    && (exists es, rs :: RecordsGiven(body, es, rs, codec) && r == if es == [] then None else Some(Somes(rs)))
    && (forall uris :: uris != [] && IsBareArray(body, uris, codec) ==> r == Some(uris))
  }

  ghost predicate IngestGives<J(!new)>(body: Body<J>, r: Option<string>, codec: Codec<J>) {
    && (exists es, rs :: LinksGiven(body, es, rs, codec)
                         && r == if Somes(rs) == [] then None else Some(Join(Somes(rs), '\n')))
    && (forall uris :: uris != [] && IsBareArray(body, uris, codec) ==> r == Some(Join(uris, '\n')))
  }

  lemma ConvertedAsGiven<J(!new)>(body: Body<J>, codec: Codec<J>)
    ensures var es := BodyEntries(body, codec);
            ConvertGives(body, if es == [] then None else Some(Records(es, codec)), codec)
  {
    RecordsAreGiven(body, codec);
    forall uris | uris != [] && IsBareArray(body, uris, codec)
      ensures BodyEntries(body, codec) != [] && Records(BodyEntries(body, codec), codec) == uris
    {
      BareItems(body.items.value, uris, codec);
    }
  }

  lemma IngestedAsGiven<J(!new)>(body: Body<J>, codec: Codec<J>)
    ensures var links := Links(BodyEntries(body, codec), codec);
            IngestGives(body, if links == [] then None else Some(Join(links, '\n')), codec)
  {
    LinksAreGiven(body, codec);
    forall uris | uris != [] && IsBareArray(body, uris, codec)
      ensures Links(BodyEntries(body, codec), codec) == uris
    {
      BareItems(body.items.value, uris, codec);
    }
  }

  /** convertJSONEntries */
  method ConvertJSONEntries<J(==, !new)>(body: Body<J>, codec: Codec<J>) returns (r: Option<seq<string>>)
    ensures var es := BodyEntries(body, codec);
            r == if es == [] then None else Some(Records(es, codec))
    ensures ConvertGives(body, r, codec)
  {
    var entries := CollectContainerEntries(body, codec);
    ConvertedAsGiven(body, codec);
    if entries.None? {
      return None;
    }
    var records := CollectRecords(entries.value, codec);
    r := Some(records);
  }

  method CollectRecords<J>(es: seq<Entry<J>>, codec: Codec<J>) returns (records: seq<string>)
    ensures records == Records(es, codec)
  {
    records := [];
    for i := 0 to |es|
      invariant records == Records(es[..i], codec)
    {
      assert es[..i + 1][..i] == es[..i];
      var rec := ToRecord(es[i], codec);
      if rec.Some? {
        records := records + [rec.value];
      }
    }
    assert es[..|es|] == es;
  }

  /** ingestJSON: the links, one a line; endpoints are left to the other consumer. */
  method IngestJSON<J(==, !new)>(body: Body<J>, codec: Codec<J>) returns (r: Option<string>)
    ensures var links := Links(BodyEntries(body, codec), codec);
            r == if links == [] then None else Some(Join(links, '\n'))
    ensures IngestGives(body, r, codec)
  {
    var entries := CollectContainerEntries(body, codec);
    IngestedAsGiven(body, codec);
    if entries.None? {
      return None;
    }
    var uris := CollectLinks(entries.value, codec);
    r := if uris == [] then None else Some(Join(uris, '\n'));
  }

  method CollectLinks<J>(es: seq<Entry<J>>, codec: Codec<J>) returns (uris: seq<string>)
    ensures uris == Links(es, codec)
  {
    uris := [];
    for i := 0 to |es|
      invariant uris == Links(es[..i], codec)
    {
      assert es[..i + 1][..i] == es[..i];
      if !es[i].isEndpoint {
        var u := ToUri(es[i], codec);
        if u.Some? {
          uris := uris + [u.value];
        }
      }
    }
    assert es[..|es|] == es;
  }

  // ---- Nothing is lost, nothing is added, order is kept ----

  function Kept<J>(es: seq<Entry<J>>, codec: Codec<J>): (n: nat)
    ensures n <= |es|
  {
    if es == [] then 0 else Kept(es[..|es| - 1], codec) + if ToRecord(es[|es| - 1], codec).Some? then 1 else 0
  }

  function LinkCount<J>(es: seq<Entry<J>>, codec: Codec<J>): (n: nat)
    ensures n <= |es|
  {
    if es == [] then 0 else LinkCount(es[..|es| - 1], codec) + if IsLink(es[|es| - 1], codec) then 1 else 0
  }

  /** An entry has exactly one record, after those of the entries before it; there are no others. */
  lemma {:induction false} RecordOfEntry<J>(es: seq<Entry<J>>, i: nat, codec: Codec<J>)
    requires i < |es|
    ensures |Records(es, codec)| == Kept(es, codec)
    ensures ToRecord(es[i], codec).Some? ==>
              && Kept(es[..i], codec) < Kept(es, codec)
              && Records(es, codec)[Kept(es[..i], codec)] == ToRecord(es[i], codec).value
    decreases |es|
  {
    var n := |es| - 1;
    RecordsAreCounted(es[..n], codec);
    if i < n {
      RecordOfEntry(es[..n], i, codec);
      assert es[..n][..i] == es[..i];
    }
  }

  lemma {:induction false} RecordsAreCounted<J>(es: seq<Entry<J>>, codec: Codec<J>)
    ensures |Records(es, codec)| == Kept(es, codec)
    decreases |es|
  {
    if es != [] {
      RecordsAreCounted(es[..|es| - 1], codec);
    }
  }

  lemma {:induction false} LinkOfEntry<J>(es: seq<Entry<J>>, i: nat, codec: Codec<J>)
    requires i < |es|
    ensures |Links(es, codec)| == LinkCount(es, codec)
    ensures IsLink(es[i], codec) ==>
              && LinkCount(es[..i], codec) < LinkCount(es, codec)
              && Links(es, codec)[LinkCount(es[..i], codec)] == ToUri(es[i], codec).value
    decreases |es|
  {
    var n := |es| - 1;
    LinksAreCounted(es[..n], codec);
    if i < n {
      LinkOfEntry(es[..n], i, codec);
      assert es[..n][..i] == es[..i];
    }
  }

  lemma {:induction false} LinksAreCounted<J>(es: seq<Entry<J>>, codec: Codec<J>)
    ensures |Links(es, codec)| == LinkCount(es, codec)
    decreases |es|
  {
    if es != [] {
      LinksAreCounted(es[..|es| - 1], codec);
    }
  }

  /** The two consumers agree: a link of the one is the record of the same entry in the other. */
  lemma LinkIsTheRecord<J>(es: seq<Entry<J>>, i: nat, codec: Codec<J>)
    requires i < |es| && IsLink(es[i], codec)
    ensures LinkCount(es[..i], codec) < |Links(es, codec)| && Kept(es[..i], codec) < |Records(es, codec)|
    ensures Links(es, codec)[LinkCount(es[..i], codec)] == Records(es, codec)[Kept(es[..i], codec)]
  {
    RecordOfEntry(es, i, codec);
    LinkOfEntry(es, i, codec);
  }

  /** Every node has a record, given a link for it or that its JSON can be written out again. */
  lemma NodesAreNeverLost<J>(es: seq<Entry<J>>, i: nat, codec: Codec<J>)
    requires i < |es| && IsNode(es[i].raw, es[i].isEndpoint, codec)
    requires ToUri(es[i], codec).Some? || codec.minify(es[i].raw, es[i].rename).Some?
    ensures exists k :: 0 <= k < |Records(es, codec)| && Some(Records(es, codec)[k]) == ToRecord(es[i], codec)
  {
    RecordOfEntry(es, i, codec);
    assert Some(Records(es, codec)[Kept(es[..i], codec)]) == ToRecord(es[i], codec);
  }

  /** A named node gives at most one entry, under its name: one that has a link if any has. */
  lemma NamedNodeGivesAtMostOne<J>(raw: J, codec: Codec<J>)
    requires codec.container(raw).Some? && IsNamedNode(codec.container(raw).value)
    ensures var c, es := codec.container(raw).value, ItemEntries(raw, codec);
            && |es| <= 1
            && (es == [] <==> forall ob :: ob in c.outbounds ==> codec.entryUri(ob).None? && !IsNode(ob, false, codec))
            && (es != [] ==>
                  && es[0].rename == NodeName(c) && es[0].raw in c.outbounds
                  && ((exists ob :: ob in c.outbounds && codec.entryUri(ob).Some?) ==> IsLink(es[0], codec)))
  {
  }

  /** Any other wrapper gives all its values, each once, in order: outbounds, servers, endpoints. */
  lemma WrapperGivesAll<J>(raw: J, codec: Codec<J>)
    requires codec.container(raw).Some? && IsWrapper(codec.container(raw).value)
            && !IsNamedNode(codec.container(raw).value)
    ensures var c, es := codec.container(raw).value, ItemEntries(raw, codec);
            var raws := c.outbounds + c.servers + c.endpoints;
            && |es| == |raws|
            && forall i :: 0 <= i < |es| ==>
                 es[i].raw == raws[i] && es[i].rename == "" && (es[i].isEndpoint <==> i >= |c.outbounds| + |c.servers|)
  {
  }
}
