/**
 GenerateConfigLite (xray2sing/ray2sing/convert.go): every line of a subscription is a chain of
 links "A -> B -> C", each of which may parse to a node, to a pair of nodes or not at all. Nodes
 get tags with a running number and are linked by detours.
 */
module Chains {
  import opened Common
  import opened GoStrings

  /** What a link parses to; `dials` says whether its options have a detour at all. */
  datatype Parsed =
    | Single(tag: string, dials: bool, isEndpoint: bool)
    | Pair(main: string, mainDials: bool, helper: string, helperDials: bool)

  datatype Node = Node(tag: string, detour: string, dials: bool)

  /** " § " in UTF-8 */
  const MARK := " \U{C2}\U{A7} "

  function Suffixed(tag: string, counter: nat): string { tag + MARK + Itoa(counter) }

  function NodeOf(tag: string, dials: bool, detour: string): Node { Node(tag, if dials then detour else "", dials) }

  /** The nodes that one link makes; a pair's main dials through its helper. */
  function NodesFor(p: Parsed, counter: nat, detour: string): (added: seq<Node>)
    ensures added != []
  {
    match p
    case Single(tag, dials, _) => [NodeOf(Suffixed(tag, counter), dials, detour)]
    case Pair(main, mainDials, helper, helperDials) =>
      var h := NodeOf(Suffixed(helper, counter + 1), helperDials, detour);
      [NodeOf(Suffixed(main, counter), mainDials, h.tag), h]
  }

  function Entry(walk: seq<Node>): string { if walk == [] then "" else walk[0].tag }

  // ---- The conversion ----

  datatype State = State(outbounds: seq<Node>, endpoints: seq<Node>, counter: nat, detour: string)

  /** Nodes join the outbounds or the endpoints; the next link to the left dials through them. */
  function Insert(s: State, added: seq<Node>, asEndpoints: bool): State {
    if asEndpoints then State(s.outbounds, s.endpoints + added, s.counter + |added|, Entry(added))
    else State(s.outbounds + added, s.endpoints, s.counter + |added|, Entry(added))
  }

  function Add(s: State, p: Parsed): State {
    Insert(s, NodesFor(p, s.counter, s.detour), p.Single? && p.isEndpoint)
  }

  /** The links of a line from the last to the first; those that do not parse are passed over. */
  function AddLinks(s: State, links: seq<Option<Parsed>>): State {
    if links == [] then s
    else
      var t := AddLinks(s, links[1..]);
      match links[0] case Some(p) => Add(t, p) case None => t
  }

  predicate Skipped(line: string) { |line| < 5 || line[0] == '#' || line[0] == '/' }

  function ParseLinks(texts: seq<string>, parse: string -> Option<Parsed>): (r: seq<Option<Parsed>>)
    ensures |r| == |texts|
  {
    seq(|texts|, i requires 0 <= i < |texts| => parse(texts[i]))
  }

  const ARROW := " -> "

  function LinksOf(line: string, parse: string -> Option<Parsed>): seq<Option<Parsed>> {
    if Skipped(line) then [] else ParseLinks(SplitOn(line, ARROW), parse)
  }

  function Convert(lines: seq<string>, parse: string -> Option<Parsed>): State {
    if lines == [] then State([], [], 0, "")
    else
      var n := |lines| - 1;
      AddLinks(Convert(lines[..n], parse).(detour := ""), LinksOf(lines[n], parse))
  }

  datatype Config = Config(outbounds: seq<Node>, endpoints: seq<Node>)

  /** The loops of the source; None stands for "No outbounds found". */
  method GenerateConfigLite(lines: seq<string>, parse: string -> Option<Parsed>) returns (r: Option<Config>)
    ensures var s := Convert(lines, parse);
            r == if s.outbounds == [] && s.endpoints == [] then None else Some(Config(s.outbounds, s.endpoints))
  {
    var outbounds: seq<Node>, endpoints: seq<Node>, counter := [], [], 0;
    for k := 0 to |lines|
      invariant var s := Convert(lines[..k], parse);
                s.outbounds == outbounds && s.endpoints == endpoints && s.counter == counter
    {
      assert lines[..k + 1][..k] == lines[..k];
      if !Skipped(lines[k]) {
        var detourTag := "";
        var chains := SplitOn(lines[k], ARROW);
        ghost var links := ParseLinks(chains, parse);
        ghost var start := State(outbounds, endpoints, counter, "");
        assert links[|chains|..] == [];
        for i := |chains| downto 0
          invariant State(outbounds, endpoints, counter, detourTag) == AddLinks(start, links[i..])
        {
          assert links[i..][1..] == links[i + 1..];
          var outend := parse(chains[i]);
          match outend {
            case None =>
            case Some(Pair(main, mainDials, helper, helperDials)) =>
              var mainTag := Suffixed(main, counter);
              counter := counter + 1;
              var helperTag := Suffixed(helper, counter);
              outbounds := outbounds + [Node(mainTag, if mainDials then helperTag else "", mainDials),
                                        Node(helperTag, if helperDials then detourTag else "", helperDials)];
              detourTag := mainTag;
              counter := counter + 1;
            case Some(Single(tag, dials, isEndpoint)) =>
              var node := Node(Suffixed(tag, counter), if dials then detourTag else "", dials);
              if isEndpoint {
                endpoints := endpoints + [node];
              } else {
                outbounds := outbounds + [node];
              }
              detourTag := node.tag;
              counter := counter + 1;
          }
        }
        assert links[0..] == links;
      }
    }
    assert lines[..|lines|] == lines;
    r := if outbounds == [] && endpoints == [] then None else Some(Config(outbounds, endpoints));
  }

  // ---- The counter suffix ----

  /** strings.LastIndex of the mark; -1 when it is not there. */
  function LastMark(tag: string): (i: int)
    ensures -1 <= i < |tag|
  {
    if tag == "" then -1
    else if HasSuffix(tag, MARK) then |tag| - |MARK|
    else LastMark(tag[..|tag| - 1])
  }

  function StripTagSuffix(tag: string): string {
    var i := LastMark(tag);
    if i < 0 || i + |MARK| > |tag| then tag
    else
      var suffix := tag[i + |MARK|..];
      if suffix == "" || !AllDigits(suffix) then tag else tag[..i]
  }

  lemma DigitIsNoMark(s: string)
    requires s != "" && IsDigit(s[|s| - 1])
    ensures !HasSuffix(s, MARK)
  {
  }

  lemma {:induction false} LastMarkBeforeDigits(tag: string, digits: string)
    requires AllDigits(digits)
    ensures LastMark(tag + MARK + digits) == |tag|
    decreases |digits|
  {
    var s := tag + MARK + digits;
    if digits == "" {
      assert s == tag + MARK;
    } else {
      assert s[|s| - 1] == digits[|digits| - 1];
      DigitIsNoMark(s);
      LastMarkBeforeDigits(tag, digits[..|digits| - 1]);
      assert s[..|s| - 1] == tag + MARK + digits[..|digits| - 1];
    }
  }

  /** The suffix can be taken off again, whatever the tag. */
  lemma StripUndoesSuffix(tag: string, counter: nat)
    ensures StripTagSuffix(Suffixed(tag, counter)) == tag
  {
    LastMarkBeforeDigits(tag, Itoa(counter));
    var s := Suffixed(tag, counter);
    assert s[|tag| + |MARK|..] == Itoa(counter);
    assert s[..|tag|] == tag;
  }

  /** The number at the end of a tag. */
  function NumberOf(tag: string): nat {
    var digits := tag[LastIndexByte(tag, ' ') + 1..];
    if AllDigits(digits) then DecimalValue(digits) else 0
  }

  lemma NumberOfSuffixed(tag: string, counter: nat)
    ensures NumberOf(Suffixed(tag, counter)) == counter
  {
    var digits := Itoa(counter);
    var front := tag + " \U{C2}\U{A7}";
    assert Suffixed(tag, counter) == front + [' '] + digits;
    LastIndexByteAt(front, ' ', digits);
    ItoaValue(counter);
  }

  // ---- Tags are distinct ----

  function All(s: State): seq<Node> { s.outbounds + s.endpoints }

  ghost predicate Below(nodes: seq<Node>, counter: nat) {
    forall i :: 0 <= i < |nodes| ==> NumberOf(nodes[i].tag) < counter
  }

  ghost predicate Distinct(nodes: seq<Node>) {
    forall i, j :: 0 <= i < j < |nodes| ==> NumberOf(nodes[i].tag) != NumberOf(nodes[j].tag)
  }

  ghost predicate Apart(a: seq<Node>, b: seq<Node>) {
    forall i, j :: 0 <= i < |a| && 0 <= j < |b| ==> NumberOf(a[i].tag) != NumberOf(b[j].tag)
  }

  /** Every tag carries a number below the counter, and no number twice. */
  ghost predicate Numbered(s: State) {
    && Below(s.outbounds, s.counter) && Below(s.endpoints, s.counter)
    && Distinct(s.outbounds) && Distinct(s.endpoints) && Apart(s.outbounds, s.endpoints)
  }

  /** New nodes, numbered from the counter on, after older ones. */
  lemma AppendDistinct(nodes: seq<Node>, added: seq<Node>, others: seq<Node>, counter: nat)
    requires Below(nodes, counter) && Below(others, counter) && Distinct(nodes) && Apart(nodes, others)
    requires forall i :: 0 <= i < |added| ==> NumberOf(added[i].tag) == counter + i
    ensures Below(nodes + added, counter + |added|) && Below(others, counter + |added|)
    ensures Distinct(nodes + added) && Apart(nodes + added, others) && Apart(others, nodes + added)
  {
  }

  lemma AddNumbers(s: State, p: Parsed)
    requires Numbered(s)
    ensures Numbered(Add(s, p))
  {
    NewNumbers(p, s.counter, s.detour);
    if p.Single? && p.isEndpoint {
      AppendDistinct(s.endpoints, NodesFor(p, s.counter, s.detour), s.outbounds, s.counter);
    } else {
      AppendDistinct(s.outbounds, NodesFor(p, s.counter, s.detour), s.endpoints, s.counter);
    }
  }

  lemma NewNumbers(p: Parsed, counter: nat, detour: string)
    ensures var added := NodesFor(p, counter, detour);
            forall i :: 0 <= i < |added| ==> NumberOf(added[i].tag) == counter + i
  {
    match p
    case Single(tag, _, _) => NumberOfSuffixed(tag, counter);
    case Pair(main, _, helper, _) =>
      NumberOfSuffixed(main, counter);
      NumberOfSuffixed(helper, counter + 1);
  }

  lemma {:induction false} LinksNumber(s: State, links: seq<Option<Parsed>>)
    requires Numbered(s)
    ensures Numbered(AddLinks(s, links))
    decreases |links|
  {
    if links != [] {
      LinksNumber(s, links[1..]);
      if links[0].Some? {
        AddNumbers(AddLinks(s, links[1..]), links[0].value);
      }
    }
  }

  lemma {:induction false} ConvertNumbers(lines: seq<string>, parse: string -> Option<Parsed>)
    ensures Numbered(Convert(lines, parse))
    decreases |lines|
  {
    if lines != [] {
      var n := |lines| - 1;
      ConvertNumbers(lines[..n], parse);
      LinksNumber(Convert(lines[..n], parse).(detour := ""), LinksOf(lines[n], parse));
    }
  }

  ghost predicate DistinctTags(nodes: seq<Node>) {
    forall i, j :: 0 <= i < j < |nodes| ==> nodes[i].tag != nodes[j].tag
  }

  /** No two of the emitted nodes share a tag. */
  lemma TagsAreDistinct(lines: seq<string>, parse: string -> Option<Parsed>)
    ensures DistinctTags(All(Convert(lines, parse)))
  {
    ConvertNumbers(lines, parse);
    var s := Convert(lines, parse);
    forall i, j | 0 <= i < j < |All(s)|
      ensures All(s)[i].tag != All(s)[j].tag
    {
      var n := |s.outbounds|;
      if j < n {
        assert NumberOf(s.outbounds[i].tag) != NumberOf(s.outbounds[j].tag);
      } else if i < n {
        assert NumberOf(s.outbounds[i].tag) != NumberOf(s.endpoints[j - n].tag);
      } else {
        assert NumberOf(s.endpoints[i - n].tag) != NumberOf(s.endpoints[j - n].tag);
      }
    }
  }

  // ---- The walk along a line ----

  /** A line's nodes in the order in which traffic enters them: the links as written, a pair's
      main before its helper, each node dialling through the next. */
  function Walk(links: seq<Option<Parsed>>, counter: nat): seq<Node> {
    if links == [] then []
    else
      var rest := Walk(links[1..], counter);
      match links[0]
      case None => rest
      case Some(p) => NodesFor(p, counter + |rest|, Entry(rest)) + rest
  }

  /** A node as the line writes it: its name, its number within the line, whether it can dial
      through another, and which of the two lists it belongs to. */
  datatype Written = Written(name: string, number: nat, dials: bool, inEndpoints: bool)

  /** What one link writes: one node, or a main and its helper, which are never endpoints. */
  function WrittenBy(p: Parsed, number: nat): seq<Written> {
    match p
    case Single(tag, dials, isEndpoint) => [Written(tag, number, dials, isEndpoint)]
    case Pair(main, mainDials, helper, helperDials) =>
      [Written(main, number, mainDials, false), Written(helper, number + 1, helperDials, false)]
  }

  /** The nodes of the links that parse, in written order; the last link has the lowest number. */
  function WrittenIn(links: seq<Option<Parsed>>): seq<Written> {
    if links == [] then []
    else
      var rest := WrittenIn(links[1..]);
      (match links[0] case None => [] case Some(p) => WrittenBy(p, |rest|)) + rest
  }

  /** The walk is what the line writes, node by node: every tag is the name, the mark and the
      running number. */
  predicate Spells(walk: seq<Node>, written: seq<Written>, counter: nat) {
    |walk| == |written| && forall i :: 0 <= i < |walk| ==> SpellsNode(walk[i], written[i], counter)
  }

  predicate SpellsNode(n: Node, w: Written, counter: nat) {
    && n.tag == w.name + " \U{C2}\U{A7} " + Itoa(counter + w.number)
    && StripTagSuffix(n.tag) == w.name && n.dials == w.dials
  }

  lemma SuffixedSpells(w: Written, counter: nat, detour: string)
    ensures SpellsNode(NodeOf(Suffixed(w.name, counter + w.number), w.dials, detour), w, counter)
  {
    StripUndoesSuffix(w.name, counter + w.number);
  }

  lemma NewNodesSpell(p: Parsed, counter: nat, detour: string, number: nat)
    ensures Spells(NodesFor(p, counter + number, detour), WrittenBy(p, number), counter)
  {
    match p
    case Single(_, _, _) => SuffixedSpells(WrittenBy(p, number)[0], counter, detour);
    case Pair(main, mainDials, helper, helperDials) =>
      SuffixedSpells(WrittenBy(p, number)[0], counter, Suffixed(helper, counter + number + 1));
      SuffixedSpells(WrittenBy(p, number)[1], counter, detour);
  }

  /** The walk visits the links that parse, in written order, under the names they had. */
  lemma {:induction false} WalkKeepsWrittenOrder(links: seq<Option<Parsed>>, counter: nat)
    ensures Spells(Walk(links, counter), WrittenIn(links), counter)
  {
    if links != [] {
      WalkKeepsWrittenOrder(links[1..], counter);
      if links[0].Some? {
        var p, walk, rest := links[0].value, Walk(links[1..], counter), WrittenIn(links[1..]);
        NewNodesSpell(p, counter, Entry(walk), |rest|);
        SpellsAppend(NodesFor(p, counter + |rest|, Entry(walk)), WrittenBy(p, |rest|), walk, rest, counter);
      }
    }
  }

  lemma SpellsAppend(a: seq<Node>, v: seq<Written>, b: seq<Node>, w: seq<Written>, counter: nat)
    requires Spells(a, v, counter) && Spells(b, w, counter)
    ensures Spells(a + b, v + w, counter)
  {
    forall i | 0 <= i < |a + b|
      ensures SpellsNode((a + b)[i], (v + w)[i], counter)
    {
      if i < |a| {
        assert SpellsNode(a[i], v[i], counter);
      } else {
        assert SpellsNode(b[i - |a|], w[i - |a|], counter);
      }
    }
  }

  /** Each node's detour is the next node of the line's walk; the last one has none. */
  predicate Linked(walk: seq<Node>) {
    forall i :: 0 <= i < |walk| ==> walk[i].detour == if walk[i].dials then Entry(walk[i + 1..]) else ""
  }

  lemma {:induction false} WalkIsLinked(links: seq<Option<Parsed>>, counter: nat)
    ensures Linked(Walk(links, counter))
  {
    if links != [] {
      var rest := Walk(links[1..], counter);
      WalkIsLinked(links[1..], counter);
      if links[0].Some? {
        NewNodesAreLinked(links[0].value, counter + |rest|, rest);
      }
    }
  }

  lemma NewNodesAreLinked(p: Parsed, counter: nat, rest: seq<Node>)
    requires Linked(rest)
    ensures Linked(NodesFor(p, counter, Entry(rest)) + rest)
  {
  }

  /** The state after a line's links: the line's walk on top of what was there before. */
  ghost predicate Reaches(t: State, before: multiset<Node>, counter: nat, walk: seq<Node>) {
    t.detour == Entry(walk) && t.counter == counter + |walk| && multiset(All(t)) == before + multiset(walk)
  }

  lemma InsertReaches(t: State, added: seq<Node>, asEndpoints: bool, before: multiset<Node>, counter: nat,
          rest: seq<Node>)
    requires Reaches(t, before, counter, rest) && added != []
    ensures Reaches(Insert(t, added, asEndpoints), before, counter, added + rest)
  {
    if asEndpoints {
      InsertCounts(t.outbounds + t.endpoints, added, []);
      assert All(Insert(t, added, true)) == t.outbounds + t.endpoints + added + [];
      assert t.outbounds + t.endpoints + [] == All(t);
    } else {
      InsertCounts(t.outbounds, added, t.endpoints);
    }
  }

  lemma InsertCounts(a: seq<Node>, added: seq<Node>, b: seq<Node>)
    ensures multiset(a + added + b) == multiset(a + b) + multiset(added)
  {
  }

  lemma AddReaches(t: State, p: Parsed, before: multiset<Node>, counter: nat, rest: seq<Node>)
    requires Reaches(t, before, counter, rest)
    ensures Reaches(Add(t, p), before, counter, NodesFor(p, counter + |rest|, Entry(rest)) + rest)
  {
    InsertReaches(t, NodesFor(p, t.counter, t.detour), p.Single? && p.isEndpoint, before, counter, rest);
  }

  /** A line adds the nodes of its walk, and ends with the walk's entry as detour. */
  ghost predicate AddsItsWalk(s: State, links: seq<Option<Parsed>>) {
    Reaches(AddLinks(s, links), multiset(All(s)), s.counter, Walk(links, s.counter))
  }

  lemma ParsedLinkStep(s: State, p: Parsed, rest: seq<Option<Parsed>>)
    requires AddsItsWalk(s, rest)
    ensures AddsItsWalk(s, [Some(p)] + rest)
  {
    var links := [Some(p)] + rest;
    assert links[1..] == rest;
    var t, walk := AddLinks(s, rest), Walk(rest, s.counter);
    AddReaches(t, p, multiset(All(s)), s.counter, walk);
    assert AddLinks(s, links) == Add(t, p);
    assert Walk(links, s.counter) == NodesFor(p, s.counter + |walk|, Entry(walk)) + walk;
  }

  lemma FailedLinkStep(s: State, rest: seq<Option<Parsed>>)
    requires AddsItsWalk(s, rest)
    ensures AddsItsWalk(s, [None] + rest)
  {
  }

  lemma {:induction false} LineAddsItsWalk(s: State, links: seq<Option<Parsed>>)
    requires s.detour == ""
    ensures AddsItsWalk(s, links)
    decreases |links|
  {
    if links != [] {
      LineAddsItsWalk(s, links[1..]);
      assert links == [links[0]] + links[1..];
      if links[0].Some? {
        ParsedLinkStep(s, links[0].value, links[1..]);
      } else {
        FailedLinkStep(s, links[1..]);
      }
    }
  }

  /** All the walks, line after line. */
  function Walks(lines: seq<string>, parse: string -> Option<Parsed>): seq<Node> {
    if lines == [] then []
    else
      var n := |lines| - 1;
      Walks(lines[..n], parse) + Walk(LinksOf(lines[n], parse), Convert(lines[..n], parse).counter)
  }

  /** Nothing is lost and nothing is added: the emitted nodes are those of the walks. */
  lemma {:induction false} EmitsTheWalks(lines: seq<string>, parse: string -> Option<Parsed>)
    ensures multiset(All(Convert(lines, parse))) == multiset(Walks(lines, parse))
    decreases |lines|
  {
    if lines != [] {
      var n := |lines| - 1;
      EmitsTheWalks(lines[..n], parse);
      var s := Convert(lines[..n], parse);
      LineAddsItsWalk(s.(detour := ""), LinksOf(lines[n], parse));
      assert All(s.(detour := "")) == All(s);
    }
  }

  /** The walk of the line at a position, with the numbers it gets. */
  function LineWalk(lines: seq<string>, k: nat, parse: string -> Option<Parsed>): seq<Node>
    requires k < |lines|
  {
    Walk(LinksOf(lines[k], parse), Convert(lines[..k], parse).counter)
  }

  lemma LastLineWalk(lines: seq<string>, parse: string -> Option<Parsed>)
    requires lines != []
    ensures Walks(lines, parse) == Walks(lines[..|lines| - 1], parse) + LineWalk(lines, |lines| - 1, parse)
  {
  }

  lemma EarlierLineWalk(lines: seq<string>, k: nat, parse: string -> Option<Parsed>)
    requires k + 1 < |lines|
    ensures LineWalk(lines[..|lines| - 1], k, parse) == LineWalk(lines, k, parse)
  {
    assert lines[..|lines| - 1][..k] == lines[..k];
  }

  lemma {:induction false} LineWalkIsEmitted(lines: seq<string>, k: nat, parse: string -> Option<Parsed>, n: Node)
    requires k < |lines| && n in LineWalk(lines, k, parse)
    ensures n in Walks(lines, parse)
    decreases |lines|
  {
    LastLineWalk(lines, parse);
    if k + 1 < |lines| {
      EarlierLineWalk(lines, k, parse);
      LineWalkIsEmitted(lines[..|lines| - 1], k, parse, n);
    }
  }

  // ---- Which list a node joins ----

  /** The nodes of a line that belong to one of the two lists, as the loop adds them: link by link
      from the last to the first, a pair's main before its helper. */
  function Joining(walk: seq<Node>, links: seq<Option<Parsed>>, inEndpoints: bool): seq<Node>
    requires |walk| == |WrittenIn(links)|
  {
    if links == [] then []
    else
      var n := |walk| - |WrittenIn(links[1..])|;
      var first := walk[..n];
      Joining(walk[n..], links[1..], inEndpoints)
      + if n > 0 && WrittenIn(links)[0].inEndpoints == inEndpoints then first else []
  }

  /** A line's links, added to a state: the line's walk, split over the two lists. */
  ghost predicate SplitsItsWalk(s: State, links: seq<Option<Parsed>>) {
    var t, walk := AddLinks(s, links), Walk(links, s.counter);
    && |walk| == |WrittenIn(links)| && t.counter == s.counter + |walk| && t.detour == Entry(walk)
    && t.outbounds == s.outbounds + Joining(walk, links, false)
    && t.endpoints == s.endpoints + Joining(walk, links, true)
  }

  lemma ParsedLinkSplits(s: State, p: Parsed, rest: seq<Option<Parsed>>)
    requires SplitsItsWalk(s, rest)
    ensures SplitsItsWalk(s, [Some(p)] + rest)
  {
    var links, t, walk := [Some(p)] + rest, AddLinks(s, rest), Walk(rest, s.counter);
    assert links[1..] == rest;
    assert AddLinks(s, links) == Add(t, p);
    assert Walk(links, s.counter) == NodesFor(p, t.counter, t.detour) + walk;
    JoinsOneList(t, p, s, Walk(links, s.counter), walk, links);
  }

  lemma FailedLinkSplits(s: State, rest: seq<Option<Parsed>>)
    requires SplitsItsWalk(s, rest)
    ensures SplitsItsWalk(s, [None] + rest)
  {
    var links, walk := [None] + rest, Walk(rest, s.counter);
    assert links[1..] == rest;
    assert walk[0..] == walk;
  }

  lemma {:induction false} LineSplits(s: State, links: seq<Option<Parsed>>)
    requires s.detour == ""
    ensures SplitsItsWalk(s, links)
    decreases |links|
  {
    if links != [] {
      LineSplits(s, links[1..]);
      assert links == [links[0]] + links[1..];
      if links[0].Some? {
        ParsedLinkSplits(s, links[0].value, links[1..]);
      } else {
        FailedLinkSplits(s, links[1..]);
      }
    }
  }

  lemma JoinsOneList(t: State, p: Parsed, s: State, walk: seq<Node>, rest: seq<Node>, links: seq<Option<Parsed>>)
    requires links != [] && links[0] == Some(p) && |rest| == |WrittenIn(links[1..])|
    requires walk == NodesFor(p, t.counter, t.detour) + rest
    requires t.outbounds == s.outbounds + Joining(rest, links[1..], false)
    requires t.endpoints == s.endpoints + Joining(rest, links[1..], true)
    ensures |walk| == |WrittenIn(links)|
    ensures Add(t, p).outbounds == s.outbounds + Joining(walk, links, false)
    ensures Add(t, p).endpoints == s.endpoints + Joining(walk, links, true)
  {
    var added := NodesFor(p, t.counter, t.detour);
    assert walk[..|added|] == added && walk[|added|..] == rest;
    assert WrittenIn(links) == WrittenBy(p, |rest|) + WrittenIn(links[1..]);
    assert |added| == |WrittenBy(p, |rest|)|;
  }

  /** The two lists of a whole subscription, line after line. */
  function Joined(lines: seq<string>, parse: string -> Option<Parsed>, inEndpoints: bool): seq<Node> {
    if lines == [] then []
    else
      var n := |lines| - 1;
      LineIsSpelt(lines, n, parse);
      Joined(lines[..n], parse, inEndpoints)
      + Joining(LineWalk(lines, n, parse), LinksOf(lines[n], parse), inEndpoints)
  }

  lemma LineIsSpelt(lines: seq<string>, k: nat, parse: string -> Option<Parsed>)
    requires k < |lines|
    ensures Spells(LineWalk(lines, k, parse), WrittenIn(LinksOf(lines[k], parse)), Convert(lines[..k], parse).counter)
  {
    WalkKeepsWrittenOrder(LinksOf(lines[k], parse), Convert(lines[..k], parse).counter);
  }

  /** The outbounds are the nodes of pairs and of links that are no endpoints, the endpoints those
      of the others, in the order of the lines. */
  lemma {:induction false} NodesJoinTheirList(lines: seq<string>, parse: string -> Option<Parsed>)
    ensures Convert(lines, parse).outbounds == Joined(lines, parse, false)
    ensures Convert(lines, parse).endpoints == Joined(lines, parse, true)
    ensures Convert(lines, parse).counter == |All(Convert(lines, parse))|
    decreases |lines|
  {
    if lines != [] {
      var n := |lines| - 1;
      NodesJoinTheirList(lines[..n], parse);
      var s, links := Convert(lines[..n], parse).(detour := ""), LinksOf(lines[n], parse);
      LineSplits(s, links);
      LineAddsItsWalk(s, links);
      assert |All(AddLinks(s, links))| == |multiset(All(AddLinks(s, links)))|;
      assert |multiset(All(s))| == |All(s)|;
    }
  }

  // ---- Lines are chains ----

  function JoinOn(texts: seq<string>, sep: string): string {
    if texts == [] then "" else if |texts| == 1 then texts[0] else texts[0] + sep + JoinOn(texts[1..], sep)
  }

  predicate NoArrow(text: string) { forall j :: 0 <= j < |text| ==> !HasPrefix(text[j..], ARROW) }

  /** No arrow starts in the text, not even one that the arrow after it completes. */
  predicate BeforeArrow(text: string) { forall j :: 0 <= j < |text| ==> !HasPrefix((text + ARROW)[j..], ARROW) }

  /** Texts with arrows between them and nowhere else. */
  predicate IsChain(texts: seq<string>) {
    && texts != [] && NoArrow(texts[|texts| - 1])
    && forall i :: 0 <= i < |texts| - 1 ==> BeforeArrow(texts[i])
  }

  lemma FirstArrow(text: string, rest: string)
    requires BeforeArrow(text)
    ensures Index(text + ARROW + rest, ARROW) == |text|
    ensures (text + ARROW + rest)[..|text|] == text && (text + ARROW + rest)[|text| + |ARROW|..] == rest
  {
    var s := text + ARROW + rest;
    assert s[|text|..][..|ARROW|] == ARROW;
    forall j | 0 <= j < |text|
      ensures !HasPrefix(s[j..], ARROW)
    {
      assert s[j..][..|ARROW|] == (text + ARROW)[j..][..|ARROW|];
    }
  }

  lemma ChainParts(texts: seq<string>)
    requires IsChain(texts) && |texts| > 1
    ensures BeforeArrow(texts[0]) && IsChain(texts[1..])
  {
  }

  lemma {:induction false} ChainSplits(texts: seq<string>)
    requires IsChain(texts)
    ensures SplitOn(JoinOn(texts, ARROW), ARROW) == texts
    decreases |texts|
  {
    if |texts| == 1 {
      LastText(texts[0]);
    } else {
      var first, rest := texts[0], texts[1..];
      ChainParts(texts);
      ChainSplits(rest);
      ChainStep(first, rest);
      assert texts == [first] + rest;
    }
  }

  lemma ChainStep(first: string, rest: seq<string>)
    requires BeforeArrow(first) && rest != [] && SplitOn(JoinOn(rest, ARROW), ARROW) == rest
    ensures SplitOn(JoinOn([first] + rest, ARROW), ARROW) == [first] + rest
  {
    assert ([first] + rest)[1..] == rest;
    SplitAtArrow(first, JoinOn(rest, ARROW));
  }

  lemma LastText(text: string)
    requires NoArrow(text)
    ensures SplitOn(text, ARROW) == [text]
  {
  }

  lemma CutAtArrow(line: string) returns (first: string, rest: string)
    requires !NoArrow(line)
    ensures line == first + ARROW + rest && BeforeArrow(first)
  {
    var i := Index(line, ARROW);
    var k :| 0 <= k < |line| && HasPrefix(line[k..], ARROW);
    assert i <= k;
    first, rest := line[..i], line[i + |ARROW|..];
    ArrowIsCut(line, i);
    forall j | 0 <= j < i
      ensures !HasPrefix((first + ARROW)[j..], ARROW)
    {
      ArrowBefore(line, first, rest, j);
    }
  }

  lemma ArrowIsCut(line: string, i: nat)
    requires i <= |line| && HasPrefix(line[i..], ARROW)
    ensures line == line[..i] + ARROW + line[i + |ARROW|..]
  {
    assert line == line[..i] + line[i..];
    assert line[i..] == ARROW + line[i..][|ARROW|..];
  }

  lemma ArrowBefore(line: string, first: string, rest: string, j: nat)
    requires line == first + ARROW + rest && j < |first| && !HasPrefix(line[j..], ARROW)
    ensures !HasPrefix((first + ARROW)[j..], ARROW)
  {
    assert (first + ARROW)[j..][..|ARROW|] == line[j..][..|ARROW|];
  }

  /** Every line is the chain of one list of texts: what the arrows leave. */
  lemma {:induction false} EveryLineIsAChain(line: string)
    ensures IsChain(SplitOn(line, ARROW)) && JoinOn(SplitOn(line, ARROW), " -> ") == line
    decreases |line|
  {
    if NoArrow(line) {
      LastText(line);
    } else {
      var first, rest := CutAtArrow(line);
      EveryLineIsAChain(rest);
      SplitAtArrow(first, rest);
      ChainOfFirst(first, SplitOn(rest, ARROW));
    }
  }

  lemma SplitAtArrow(first: string, rest: string)
    requires BeforeArrow(first)
    ensures SplitOn(first + ARROW + rest, ARROW) == [first] + SplitOn(rest, ARROW)
  {
    FirstArrow(first, rest);
  }

  lemma ChainOfFirst(first: string, texts: seq<string>)
    requires BeforeArrow(first) && IsChain(texts)
    ensures IsChain([first] + texts) && JoinOn([first] + texts, ARROW) == first + ARROW + JoinOn(texts, ARROW)
  {
    assert ([first] + texts)[1..] == texts;
  }

  /** A comment, or less than a link can be, gives nothing; any other line gives each of its texts
      to the parser. */
  lemma LinesAreChains(texts: seq<string>, parse: string -> Option<Parsed>)
    requires IsChain(texts)
    ensures var line, links := JoinOn(texts, " -> "), LinksOf(JoinOn(texts, " -> "), parse);
            if |line| < 5 || line[0] == '#' || line[0] == '/' then links == []
            else |links| == |texts| && forall i :: 0 <= i < |texts| ==> links[i] == parse(texts[i])
  {
    ChainSplits(texts);
  }

  // ---- Following detours ----

  function Find(nodes: seq<Node>, tag: string): Option<Node> {
    if nodes == [] then None else if nodes[0].tag == tag then Some(nodes[0]) else Find(nodes[1..], tag)
  }

  /** The tags met by following detours from a tag. */
  function Follow(nodes: seq<Node>, tag: string, steps: nat): seq<string>
    decreases steps
  {
    if steps == 0 || tag == "" then []
    else match Find(nodes, tag) case None => [] case Some(n) => [n.tag] + Follow(nodes, n.detour, steps - 1)
  }

  lemma {:induction false} FindsTheNode(nodes: seq<Node>, n: Node)
    requires n in nodes && DistinctTags(nodes)
    ensures Find(nodes, n.tag) == Some(n)
    decreases |nodes|
  {
    if nodes[0] != n {
      assert n in nodes[1..];
      FindsTheNode(nodes[1..], n);
    }
  }

  /** The walk up to and including the first node that cannot dial through another. */
  function Reached(walk: seq<Node>): seq<Node> {
    if walk == [] then [] else [walk[0]] + if walk[0].dials then Reached(walk[1..]) else []
  }

  function Tags(walk: seq<Node>): (tags: seq<string>)
    ensures |tags| == |walk|
  {
    seq(|walk|, i requires 0 <= i < |walk| => walk[i].tag)
  }

  lemma {:induction false} FollowsLinkedWalk(nodes: seq<Node>, walk: seq<Node>, steps: nat)
    requires Linked(walk) && |walk| <= steps
    requires DistinctTags(nodes)
    requires forall i :: 0 <= i < |walk| ==> walk[i] in nodes && walk[i].tag != ""
    ensures Follow(nodes, Entry(walk), steps) == Tags(Reached(walk))
    decreases |walk|
  {
    if walk != [] {
      var n := walk[0];
      assert n.detour == if n.dials then Entry(walk[1..]) else "";
      FindsTheNode(nodes, n);
      if n.dials {
        LinkedTail(walk);
        FollowsLinkedWalk(nodes, walk[1..], steps - 1);
        assert Tags(Reached(walk)) == [n.tag] + Tags(Reached(walk[1..]));
      } else {
        assert Follow(nodes, "", steps - 1) == [];
        assert Tags([n]) == [n.tag];
      }
    }
  }

  lemma LinkedTail(walk: seq<Node>)
    requires Linked(walk) && walk != []
    ensures Linked(walk[1..])
  {
  }

  lemma {:induction false} AllDiallingIsReached(walk: seq<Node>)
    requires forall i :: 0 <= i < |walk| ==> walk[i].dials
    ensures Reached(walk) == walk
  {
    if walk != [] {
      AllDiallingIsReached(walk[1..]);
    }
  }

  lemma {:induction false} WalkTagsAreNotEmpty(links: seq<Option<Parsed>>, counter: nat)
    ensures forall i :: 0 <= i < |Walk(links, counter)| ==> Walk(links, counter)[i].tag != ""
  {
    if links != [] {
      WalkTagsAreNotEmpty(links[1..], counter);
    }
  }

  /** Following detours from a line's entry, among all the nodes of the subscription, visits the
      links of that line that parse, in written order, and stops: at the end of the line, or
      after a node that cannot dial through another. */
  lemma DetoursFollowTheLine(lines: seq<string>, k: nat, parse: string -> Option<Parsed>, steps: nat)
    requires k < |lines| && |LineWalk(lines, k, parse)| <= steps
    ensures var walk := LineWalk(lines, k, parse);
            && Follow(All(Convert(lines, parse)), Entry(walk), steps) == Tags(Reached(walk))
            && Spells(walk, WrittenIn(LinksOf(lines[k], parse)), Convert(lines[..k], parse).counter)
            && ((forall i :: 0 <= i < |walk| ==> walk[i].dials) ==> Reached(walk) == walk)
  {
    var links, counter := LinksOf(lines[k], parse), Convert(lines[..k], parse).counter;
    var walk, all := Walk(links, counter), All(Convert(lines, parse));
    WalkIsLinked(links, counter);
    WalkTagsAreNotEmpty(links, counter);
    WalkKeepsWrittenOrder(links, counter);
    TagsAreDistinct(lines, parse);
    forall i | 0 <= i < |walk|
      ensures walk[i] in all
    {
      LineWalkIsEmitted(lines, k, parse, walk[i]);
      InSameMultiset(walk[i], lines, parse);
    }
    FollowsLinkedWalk(all, walk, steps);
    if forall i :: 0 <= i < |walk| ==> walk[i].dials {
      AllDiallingIsReached(walk);
    }
  }

  lemma InSameMultiset(n: Node, lines: seq<string>, parse: string -> Option<Parsed>)
    ensures n in Walks(lines, parse) <==> n in All(Convert(lines, parse))
  {
    EmitsTheWalks(lines, parse);
    assert n in multiset(Walks(lines, parse)) <==> n in multiset(All(Convert(lines, parse)));
  }

  /** A detour names the next node of its own line's walk, which is emitted, or nothing. */
  lemma DetoursStayInTheLine(lines: seq<string>, parse: string -> Option<Parsed>, n: Node)
    requires n in All(Convert(lines, parse)) && n.detour != ""
    ensures exists k: nat, i: nat :: k < |lines| && NextInLine(LineWalk(lines, k, parse), i, n)
  {
    InSameMultiset(n, lines, parse);
    var k := LineOf(lines, parse, n);
    WalkIsLinked(LinksOf(lines[k], parse), Convert(lines[..k], parse).counter);
    var i := NextInWalk(LineWalk(lines, k, parse), n);
  }

  lemma NextInWalk(walk: seq<Node>, n: Node) returns (i: nat)
    requires Linked(walk) && n in walk && n.detour != ""
    ensures NextInLine(walk, i, n)
  {
    i :| 0 <= i < |walk| && walk[i] == n;
    assert n.detour == Entry(walk[i + 1..]);
  }

  predicate NextInLine(walk: seq<Node>, i: nat, n: Node) {
    i + 1 < |walk| && walk[i] == n && walk[i + 1].tag == n.detour
  }

  lemma {:induction false} LineOf(lines: seq<string>, parse: string -> Option<Parsed>, n: Node) returns (k: nat)
    requires n in Walks(lines, parse)
    ensures k < |lines| && n in LineWalk(lines, k, parse)
    decreases |lines|
  {
    EarlierOrLast(lines, parse, n);
    k := |lines| - 1;
    if n !in LineWalk(lines, k, parse) {
      k := LineOf(lines[..|lines| - 1], parse, n);
      EarlierLineWalk(lines, k, parse);
    }
  }

  lemma EarlierOrLast(lines: seq<string>, parse: string -> Option<Parsed>, n: Node)
    requires n in Walks(lines, parse)
    ensures lines != [] && (n in Walks(lines[..|lines| - 1], parse) || n in LineWalk(lines, |lines| - 1, parse))
  {
  }
}
