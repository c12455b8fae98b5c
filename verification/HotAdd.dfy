/**
 Adding servers to a running box and taking them out again without a restart.

 The managers and selectors of the engine are outside the repository. Taken from the
 comments: Create replaces what the tag named, Remove fails on an unknown tag, and on a
 tag another outbound depends on it takes the outbound out of its map before it fails;
 RemoveMember moves a lost selection to the default or the first member. A selector
 depends on its members, a server on its detour.
 */
module HotAdd {
  import opened Common
  import GoStrings

  type Tag = string

  datatype Outbound =
    | Server(typ: string, detour: Tag)     // detour "": none
    | Selector(members: seq<Tag>, selected: Tag, fallback: Tag)

  /** The live box: outbounds, and endpoints with their detour. */
  datatype Box = Box(outbounds: map<Tag, Outbound>, endpoints: map<Tag, Tag>)

  function DetourDeps(detour: Tag): seq<Tag> { if detour == "" then [] else [detour] }

  function Dependencies(o: Outbound): seq<Tag> {
    match o
    case Server(_, d) => DetourDeps(d)
    case Selector(ms, _, _) => ms
  }

  predicate Known(b: Box, tag: Tag) { tag in b.outbounds || tag in b.endpoints }

  /** OutboundManager.Outbound: outbounds first, endpoints as a fallback. */
  function DependenciesOf(b: Box, tag: Tag): seq<Tag> {
    if tag in b.outbounds then Dependencies(b.outbounds[tag])
    else if tag in b.endpoints then DetourDeps(b.endpoints[tag])
    else []
  }

  /** `x` depends on `d`. */
  predicate Uses(b: Box, x: Tag, d: Tag) {
    || (x in b.outbounds && d in Dependencies(b.outbounds[x]))
    || (x in b.endpoints && d in DetourDeps(b.endpoints[x]))
  }

  /** Every selector member and every detour names something in the box. */
  ghost predicate Resolvable(b: Box) {
    forall x, d :: Uses(b, x, d) ==> Known(b, d)
  }

  /** outboundTagReferenced: something else in the box depends on the tag. */
  ghost predicate Referenced(b: Box, tag: Tag) {
    exists x :: x != tag && Uses(b, x, tag)
  }

  // ---- Selector membership ----

  function AddMember(o: Outbound, tag: Tag): Outbound
    requires o.Selector?
  {
    if tag in o.members then o else o.(members := o.members + [tag])
  }

  function Without(ms: seq<Tag>, tag: Tag): (r: seq<Tag>)
    ensures forall m :: m in r <==> m in ms && m != tag
  {
    if ms == [] then [] else (if ms[0] == tag then [] else [ms[0]]) + Without(ms[1..], tag)
  }

  function RemoveMember(o: Outbound, tag: Tag): Outbound {
    match o
    case Server(_, _) => o
    case Selector(ms, sel, fb) =>
      var left := Without(ms, tag);
      Selector(left, if sel != tag then sel else if fb in left then fb else if left != [] then left[0] else "", fb)
  }

  function DropMemberships(m: map<Tag, Outbound>, tag: Tag): map<Tag, Outbound> {
    map t | t in m :: RemoveMember(m[t], tag)
  }

  // ---- Remove ----

  const HELPER_MARK := " \U{C2}\U{B7} "

  function OwnHelpers(deps: seq<Tag>, tag: Tag): (r: seq<Tag>)
    ensures forall h :: h in r <==> h in deps && GoStrings.HasPrefix(h, tag + HELPER_MARK)
  {
    if deps == [] then []
    else (if GoStrings.HasPrefix(deps[0], tag + HELPER_MARK) then [deps[0]] else []) + OwnHelpers(deps[1..], tag)
  }

  /** The helpers left without a user go; one still referenced stays. */
  ghost function DropHelpers(b: Box, helpers: seq<Tag>): Box
    decreases |helpers|
  {
    if helpers == [] then b
    else
      var h := helpers[0];
      DropHelpers(if Referenced(b, h) then b else b.(outbounds := b.outbounds - {h}), helpers[1..])
  }

  predicate DependedOn(m: map<Tag, Outbound>, tag: Tag) {
    exists t :: t in m && tag in Dependencies(m[t])
  }

  /** RemoveOutbound: the box it leaves behind, and whether it reported success. */
  ghost function Remove(b: Box, tag: Tag): (Box, bool) {
    var helpers := OwnHelpers(DependenciesOf(b, tag), tag);
    var members := DropMemberships(b.outbounds, tag);
    if tag in b.outbounds then
      var left := Box(members - {tag}, b.endpoints);
      if DependedOn(left.outbounds, tag) then (left, false) else (DropHelpers(left, helpers), true)
    else if tag in b.endpoints then
      (DropHelpers(Box(members, b.endpoints - {tag}), helpers), true)
    else
      (Box(members, b.endpoints), false)
  }

  lemma {:induction false} DropHelpersKeepsResolvable(b: Box, helpers: seq<Tag>)
    requires Resolvable(b)
    ensures var r := DropHelpers(b, helpers);
            && Resolvable(r) && r.endpoints == b.endpoints && r.outbounds.Keys <= b.outbounds.Keys
            && (forall t :: t in r.outbounds ==> r.outbounds[t] == b.outbounds[t])
            && (forall t :: t in b.outbounds && t !in r.outbounds ==> t in helpers)
    decreases |helpers|
  {
    if helpers != [] {
      var h := helpers[0];
      var b' := if Referenced(b, h) then b else b.(outbounds := b.outbounds - {h});
      forall x, d | Uses(b', x, d)
        ensures Known(b', d)
      {
        assert Uses(b, x, d);
      }
      DropHelpersKeepsResolvable(b', helpers[1..]);
    }
  }

  lemma {:induction false} DropHelpersKeepsOthers(b: Box, helpers: seq<Tag>)
    ensures var r := DropHelpers(b, helpers);
            && r.endpoints == b.endpoints && r.outbounds.Keys <= b.outbounds.Keys
            && forall t :: t in b.outbounds && t !in helpers ==> t in r.outbounds && r.outbounds[t] == b.outbounds[t]
    decreases |helpers|
  {
    if helpers != [] {
      var h := helpers[0];
      DropHelpersKeepsOthers(if Referenced(b, h) then b else b.(outbounds := b.outbounds - {h}), helpers[1..]);
    }
  }

  predicate DialsAsOutbound(b: Box, x: Tag, tag: Tag) {
    x in b.outbounds && b.outbounds[x].Server? && b.outbounds[x].detour == tag
  }

  predicate DialsAsEndpoint(b: Box, x: Tag, tag: Tag) { x in b.endpoints && b.endpoints[x] == tag }

  predicate Dials(b: Box, x: Tag, tag: Tag) { DialsAsOutbound(b, x, tag) || DialsAsEndpoint(b, x, tag) }

  /** `x` goes together with the endpoint `tag`: a helper of its own that nothing else uses. */
  ghost predicate GoesWith(b: Box, x: Tag, tag: Tag) {
    && tag !in b.outbounds && x in OwnHelpers(DependenciesOf(b, tag), tag)
    && forall y :: y != x && y != tag ==> !Uses(b, y, x)
  }

  /** `x` dials through the tag, and is not taken out with it. */
  ghost predicate KeepsDialling(b: Box, x: Tag, tag: Tag) {
    && tag != "" && x != tag
    && (DialsAsEndpoint(b, x, tag) || (DialsAsOutbound(b, x, tag) && !GoesWith(b, x, tag)))
  }

  ghost predicate LeftDialled(b: Box, tag: Tag) { exists x :: KeepsDialling(b, x, tag) }

  /** The box once the tag itself is gone, its helpers not yet. */
  function Cleared(b: Box, tag: Tag): Box {
    var members := DropMemberships(b.outbounds, tag);
    if tag in b.outbounds then Box(members - {tag}, b.endpoints) else Box(members, b.endpoints - {tag})
  }

  lemma ClearedUses(b: Box, tag: Tag, x: Tag, d: Tag)
    requires Uses(Cleared(b, tag), x, d)
    ensures Uses(b, x, d) && (d == tag ==> Dials(b, x, tag) && tag != "")
    ensures x == tag ==> tag in b.outbounds && tag in b.endpoints
  {
  }

  lemma ClearedIsResolvable(b: Box, tag: Tag)
    requires Resolvable(b) && (forall x :: Uses(Cleared(b, tag), x, tag) ==> Known(Cleared(b, tag), tag))
    ensures Resolvable(Cleared(b, tag))
  {
    forall x, d | Uses(Cleared(b, tag), x, d)
      ensures Known(Cleared(b, tag), d)
    {
      ClearedUses(b, tag, x, d);
    }
  }

  /** Taking a tag out of the box keeps it whole exactly when nobody who stays dials through the
      tag, or an endpoint of the same name is left. (Any number of selectors may list it; they
      are cleaned first.) */
  lemma RemoveKeepsResolvable(b: Box, tag: Tag)
    requires Resolvable(b)
    ensures Resolvable(Remove(b, tag).0) <==> (tag in b.outbounds && tag in b.endpoints) || !LeftDialled(b, tag)
  {
    if tag in b.outbounds {
      RemoveOfOutbound(b, tag);
    } else if tag in b.endpoints {
      RemoveOfEndpoint(b, tag);
    } else {
      RemoveOfUnknown(b, tag);
    }
  }

  lemma RemoveOfUnknown(b: Box, tag: Tag)
    requires Resolvable(b) && !Known(b, tag)
    ensures Resolvable(Remove(b, tag).0) && !LeftDialled(b, tag)
  {
    assert b.endpoints - {tag} == b.endpoints;
    assert Remove(b, tag).0 == Cleared(b, tag);
    forall x
      ensures !Uses(Cleared(b, tag), x, tag) && !KeepsDialling(b, x, tag)
    {
      assert !Uses(b, x, tag);
      if Uses(Cleared(b, tag), x, tag) {
        ClearedUses(b, tag, x, tag);
      }
    }
    ClearedIsResolvable(b, tag);
  }

  lemma RemoveOfOutbound(b: Box, tag: Tag)
    requires Resolvable(b) && tag in b.outbounds
    ensures Resolvable(Remove(b, tag).0) <==> tag in b.endpoints || !LeftDialled(b, tag)
  {
    var left := Cleared(b, tag);
    var helpers := OwnHelpers(DependenciesOf(b, tag), tag);
    if tag !in b.endpoints && LeftDialled(b, tag) {
      var x :| KeepsDialling(b, x, tag);
      assert Uses(left, x, tag) && !Known(left, tag);
      if DialsAsOutbound(b, x, tag) {
        assert tag in Dependencies(left.outbounds[x]);
      } else {
        DropHelpersKeepsOthers(left, helpers);
        assert Uses(DropHelpers(left, helpers), x, tag);
      }
      assert Uses(Remove(b, tag).0, x, tag);
    } else {
      forall x | Uses(left, x, tag)
        ensures Known(left, tag)
      {
        ClearedUses(b, tag, x, tag);
        assert x != tag ==> KeepsDialling(b, x, tag);
      }
      ClearedIsResolvable(b, tag);
      DropHelpersKeepsResolvable(left, helpers);
    }
  }

  lemma RemoveOfEndpoint(b: Box, tag: Tag)
    requires Resolvable(b) && tag !in b.outbounds && tag in b.endpoints
    ensures Resolvable(Remove(b, tag).0) <==> !LeftDialled(b, tag)
  {
    if LeftDialled(b, tag) {
      var x :| KeepsDialling(b, x, tag);
      EndpointLeftDialled(b, tag, x);
    } else {
      EndpointNotLeftDialled(b, tag);
    }
  }

  lemma EndpointLeftDialled(b: Box, tag: Tag, x: Tag)
    requires tag !in b.outbounds && tag in b.endpoints && KeepsDialling(b, x, tag)
    ensures !Resolvable(Remove(b, tag).0)
  {
    var left := Cleared(b, tag);
    var helpers := OwnHelpers(DependenciesOf(b, tag), tag);
    var after := DropHelpers(left, helpers);
    assert forall h :: h in helpers ==> h == b.endpoints[tag];
    DropHelpersKeepsOthers(left, helpers);
    assert Uses(left, x, tag);
    if !DialsAsEndpoint(b, x, tag) && x in helpers {
      var y :| y != x && y != tag && Uses(b, y, x);
      assert x != tag && Uses(left, y, x);
      UsedHelperStays(left, helpers, y, x);
      DropHelpersKeepsValues(left, helpers);
    }
    assert Uses(after, x, tag) && !Known(after, tag);
  }

  lemma {:induction false} DropHelpersKeepsValues(b: Box, helpers: seq<Tag>)
    ensures forall t :: t in DropHelpers(b, helpers).outbounds ==>
              t in b.outbounds && DropHelpers(b, helpers).outbounds[t] == b.outbounds[t]
    decreases |helpers|
  {
    if helpers != [] {
      var h := helpers[0];
      DropHelpersKeepsValues(if Referenced(b, h) then b else b.(outbounds := b.outbounds - {h}), helpers[1..]);
    }
  }

  lemma EndpointNotLeftDialled(b: Box, tag: Tag)
    requires Resolvable(b) && tag !in b.outbounds && tag in b.endpoints && !LeftDialled(b, tag)
    ensures Resolvable(Remove(b, tag).0)
  {
    var left := Cleared(b, tag);
    var helpers := OwnHelpers(DependenciesOf(b, tag), tag);
    if x :| Uses(left, x, tag) {
      ClearedUses(b, tag, x, tag);
      assert !KeepsDialling(b, x, tag);
      HelperGoesWith(b, tag, x);
    } else {
      ClearedIsResolvable(b, tag);
      DropHelpersKeepsResolvable(left, helpers);
    }
  }

  lemma OneHelper(detour: Tag, tag: Tag)
    ensures |OwnHelpers(DetourDeps(detour), tag)| <= 1
  {
    if detour != "" {
      assert [detour][1..] == [];
    }
  }

  /** Only the endpoint's own helper dials back to it: both go, and nothing else is touched. */
  lemma HelperGoesWith(b: Box, tag: Tag, h: Tag)
    requires Resolvable(b) && tag !in b.outbounds && tag in b.endpoints && !LeftDialled(b, tag)
    requires h != tag && tag != "" && Dials(b, h, tag)
    ensures Resolvable(Remove(b, tag).0)
  {
    var left := Cleared(b, tag);
    var helpers := OwnHelpers(DependenciesOf(b, tag), tag);
    assert !KeepsDialling(b, h, tag);
    OneHelper(b.endpoints[tag], tag);
    assert helpers == [h];
    var after := left.(outbounds := left.outbounds - {h});
    if y :| y != h && Uses(left, y, h) {
      ClearedUses(b, tag, y, h);
    }
    assert Remove(b, tag).0 == after by {
      assert [h][1..] == [];
      assert DropHelpers(after, []) == after;
    }
    forall x, d | Uses(after, x, d)
      ensures Known(after, d)
    {
      assert Uses(left, x, d);
      ClearedUses(b, tag, x, d);
      assert !KeepsDialling(b, x, tag);
    }
  }

  /** What the caller is told: a server that another server dials through, or an unknown tag, is
      reported as a failure; an endpoint never is. */
  lemma RemoveReportsSuccess(b: Box, tag: Tag)
    ensures Remove(b, tag).1
            <==> if tag in b.outbounds then tag == "" || !exists x :: x != tag && DialsAsOutbound(b, x, tag)
                 else tag in b.endpoints
  {
    var left := Cleared(b, tag);
    if tag in b.outbounds {
      if x :| x != tag && DialsAsOutbound(b, x, tag) {
        assert x in left.outbounds;
        assert tag != "" ==> tag in Dependencies(left.outbounds[x]);
      }
      if t :| t in left.outbounds && tag in Dependencies(left.outbounds[t]) {
        assert Uses(left, t, tag);
        ClearedUses(b, tag, t, tag);
        assert DialsAsOutbound(b, t, tag);
      }
    }
  }

  /** A group that stays has its other members in their order, and keeps its selection unless that
      was the removed tag: then its fallback is selected if it is still a member, else the first
      member, else nothing. */
  lemma SelectionAfterRemove(b: Box, tag: Tag, g: Tag, before: seq<Tag>, after: seq<Tag>)
    requires g in Remove(b, tag).0.outbounds && g in b.outbounds && b.outbounds[g].Selector?
    requires b.outbounds[g].members == before + [tag] + after && tag !in before && tag !in after
    ensures var was, now, left := b.outbounds[g], Remove(b, tag).0.outbounds[g], before + after;
            && now.Selector? && now.members == left && now.fallback == was.fallback
            && (was.selected != tag ==> now.selected == was.selected)
            && (was.selected == tag && was.fallback in left ==> now.selected == was.fallback)
            && (was.selected == tag && was.fallback !in left && left != [] ==> now.selected == left[0])
            && (was.selected == tag && left == [] ==> now.selected == "")
  {
    WithoutOne(before, tag, after);
    var members := DropMemberships(b.outbounds, tag);
    var helpers := OwnHelpers(DependenciesOf(b, tag), tag);
    if tag in b.outbounds {
      DropHelpersKeepsResult(Box(members - {tag}, b.endpoints), helpers, g);
    } else if tag in b.endpoints {
      DropHelpersKeepsResult(Box(members, b.endpoints - {tag}), helpers, g);
    }
  }

  lemma {:induction false} DropHelpersKeepsResult(b: Box, helpers: seq<Tag>, g: Tag)
    ensures g in DropHelpers(b, helpers).outbounds ==>
              g in b.outbounds && DropHelpers(b, helpers).outbounds[g] == b.outbounds[g]
    decreases |helpers|
  {
    if helpers != [] {
      var h := helpers[0];
      DropHelpersKeepsResult(if Referenced(b, h) then b else b.(outbounds := b.outbounds - {h}), helpers[1..], g);
    }
  }

  lemma {:induction false} WithoutOne(before: seq<Tag>, tag: Tag, after: seq<Tag>)
    requires tag !in before && tag !in after
    ensures Without(before + [tag] + after, tag) == before + after
  {
    if before == [] {
      assert ([] + [tag] + after)[1..] == after;
      WithoutNone(after, tag);
    } else {
      WithoutOne(before[1..], tag, after);
      assert (before + [tag] + after)[1..] == before[1..] + [tag] + after;
    }
  }

  lemma {:induction false} WithoutNone(ms: seq<Tag>, tag: Tag)
    requires tag !in ms
    ensures Without(ms, tag) == ms
  {
    if ms != [] {
      WithoutNone(ms[1..], tag);
    }
  }

  /** The failing case is reported, but only after the main is gone. */
  lemma FailedRemoveLeavesADanglingDetour()
    ensures var b := Box(map["a" := Server("vless", ""), "b" := Server("vless", "a")], map[]);
            Resolvable(b) && Remove(b, "a") == (Box(map["b" := Server("vless", "a")], map[]), false)
            && !Resolvable(Remove(b, "a").0)
  {
    var b := Box(map["a" := Server("vless", ""), "b" := Server("vless", "a")], map[]);
    var r := Remove(b, "a").0;
    assert "a" in Dependencies(b.outbounds["b"]);
    var left := DropMemberships(b.outbounds, "a") - {"a"};
    assert left == map["b" := Server("vless", "a")];
    assert "b" in left && "a" in Dependencies(left["b"]);
    assert r == Box(left, map[]);
    assert Uses(r, "b", "a") && !Known(r, "a");
  }

  /** And success can be reported although a detour is left dangling: the tag was an endpoint, or
      the one who dials through it is. */
  lemma SuccessfulRemoveLeavesADanglingDetour()
    ensures var b := Box(map["b" := Server("vless", "a")], map["a" := ""]);
            Resolvable(b) && Remove(b, "a") == (Box(map["b" := Server("vless", "a")], map[]), true)
            && !Resolvable(Remove(b, "a").0)
    ensures var b := Box(map["a" := Server("vless", "")], map["e" := "a"]);
            Resolvable(b) && Remove(b, "a") == (Box(map[], map["e" := "a"]), true) && !Resolvable(Remove(b, "a").0)
  {
    var b := Box(map["b" := Server("vless", "a")], map["a" := ""]);
    assert DropMemberships(b.outbounds, "a") == b.outbounds;
    assert b.endpoints - {"a"} == map[];
    assert KeepsDialling(b, "b", "a");
    RemoveKeepsResolvable(b, "a");
    var c := Box(map["a" := Server("vless", "")], map["e" := "a"]);
    assert DropMemberships(c.outbounds, "a") - {"a"} == map[];
    assert KeepsDialling(c, "e", "a");
    RemoveKeepsResolvable(c, "a");
  }

  /** A helper that somebody other than the main still uses is never taken out with it. */
  lemma SharedHelperStays(b: Box, tag: Tag, x: Tag, h: Tag)
    requires h in b.outbounds && h != tag && x != h && x != tag && Uses(b, x, h)
    requires x !in OwnHelpers(DependenciesOf(b, tag), tag)
    ensures h in Remove(b, tag).0.outbounds
  {
    var helpers := OwnHelpers(DependenciesOf(b, tag), tag);
    var left := if tag in b.outbounds then Box(DropMemberships(b.outbounds, tag) - {tag}, b.endpoints)
                else Box(DropMemberships(b.outbounds, tag), b.endpoints - {tag});
    assert Uses(left, x, h);
    UsedHelperStays(left, helpers, x, h);
  }

  lemma {:induction false} UsedHelperStays(b: Box, helpers: seq<Tag>, x: Tag, h: Tag)
    requires h in b.outbounds && x != h && x !in helpers && Uses(b, x, h)
    ensures h in DropHelpers(b, helpers).outbounds
    decreases |helpers|
  {
    if helpers != [] {
      var g := helpers[0];
      var b' := if Referenced(b, g) then b else b.(outbounds := b.outbounds - {g});
      assert Uses(b', x, h);
      UsedHelperStays(b', helpers[1..], x, h);
    }
  }

  // ---- Which outbound really carries the traffic ----

  const MAX_GROUP_HOPS := 8

  /** Nothing to follow: no group, or one that points nowhere or to itself. */
  predicate Stops(b: Box, tag: Tag) {
    || tag !in b.outbounds || b.outbounds[tag].Server?
    || b.outbounds[tag].selected == "" || b.outbounds[tag].selected == tag
  }

  function Hops(b: Box, tag: Tag, n: nat): Tag
    decreases n
  {
    if n == 0 || Stops(b, tag) then tag else Hops(b, b.outbounds[tag].selected, n - 1)
  }

  /** Groups nested no deeper than the bound are resolved to the end, and a stop is final; a
      deeper nest or a cycle leaves off inside it. */
  lemma {:induction false} ResolvedWithinTheBound(b: Box, tag: Tag, n: nat)
    requires n <= MAX_GROUP_HOPS
    ensures Stops(b, Hops(b, tag, n)) ==> Hops(b, tag, MAX_GROUP_HOPS) == Hops(b, tag, n)
  {
    if Stops(b, Hops(b, tag, n)) {
      StoppedStays(b, tag, n, MAX_GROUP_HOPS);
    }
  }

  lemma {:induction false} StoppedStays(b: Box, tag: Tag, n: nat, m: nat)
    requires n <= m && Stops(b, Hops(b, tag, n))
    ensures Hops(b, tag, m) == Hops(b, tag, n)
    decreases n
  {
    if n > 0 && !Stops(b, tag) {
      StoppedStays(b, b.outbounds[tag].selected, n - 1, m - 1);
    }
  }

  // ---- Add ----

  /** What ParseConfig makes of the content of a request. */
  datatype ParsedServer = ParsedServer(tag: Tag, typ: string, detour: Tag)

  datatype Parsed = Parsed(outbounds: seq<ParsedServer>, endpoints: seq<ParsedServer>)

  predicate IsSystem(typ: string) {
    typ in {"selector", "urltest", "direct", "block", "dns"}
  }

  function Real(obs: seq<ParsedServer>): seq<ParsedServer> {
    if obs == [] then [] else (if IsSystem(obs[0].typ) then [] else [obs[0]]) + Real(obs[1..])
  }

  function FirstTagged(obs: seq<ParsedServer>, tag: Tag): (i: nat)
    ensures i <= |obs| && (i < |obs| ==> obs[i].tag == tag)
    ensures forall j :: 0 <= j < i ==> obs[j].tag != tag
  {
    if obs == [] || obs[0].tag == tag then 0 else 1 + FirstTagged(obs[1..], tag)
  }

  /** The main takes the requested tag, and a helper it dials through a tag made from it. */
  function Retag(servers: seq<ParsedServer>, override: Tag): (r: seq<ParsedServer>)
    requires servers != []
    ensures |r| == |servers|
  {
    var main := if override == "" then servers[0] else servers[0].(tag := override);
    var i := FirstTagged(servers[1..], main.detour);
    if main.detour == "" || i == |servers| - 1 then [main] + servers[1..]
    else
      var helperTag := main.tag + HELPER_MARK + servers[1 + i].typ;
      [main.(detour := helperTag)] + servers[1..][i := servers[1 + i].(tag := helperTag)]
  }

  function CreateAll(m: map<Tag, Outbound>, obs: seq<ParsedServer>): map<Tag, Outbound>
    decreases |obs|
  {
    if obs == [] then m else CreateAll(m[obs[0].tag := Server(obs[0].typ, obs[0].detour)], obs[1..])
  }

  function CreateEndpoints(m: map<Tag, Tag>, eps: seq<ParsedServer>): map<Tag, Tag>
    decreases |eps|
  {
    if eps == [] then m else CreateEndpoints(m[eps[0].tag := eps[0].detour], eps[1..])
  }

  /** The main's tag into every listed selector; stops at the first tag that is no selector. */
  function Join(m: map<Tag, Outbound>, selectors: seq<Tag>, tag: Tag): (map<Tag, Outbound>, bool) {
    if selectors == [] then (m, true)
    else if selectors[0] !in m || !m[selectors[0]].Selector? then (m, false)
    else Join(m[selectors[0] := AddMember(m[selectors[0]], tag)], selectors[1..], tag)
  }

  /** AddOutbound: the box it leaves behind and, on success, the tag of the main. */
  function Add(b: Box, content: Parsed, override: Tag, selectors: seq<Tag>): (Box, Option<Tag>) {
    var servers := Real(content.outbounds);
    if servers == [] && content.endpoints == [] then (b, None)
    else
      var obs := if servers == [] then [] else Retag(servers, override);
      var eps := if servers == [] && override != ""
                 then content.endpoints[0 := content.endpoints[0].(tag := override)]
                 else content.endpoints;
      var mainTag := if servers == [] then eps[0].tag else obs[0].tag;
      var outbounds := CreateAll(b.outbounds, obs);
      var endpoints := CreateEndpoints(b.endpoints, eps);
      var (joined, ok) := Join(outbounds, selectors, mainTag);
      (Box(joined, endpoints), if ok then Some(mainTag) else None)
  }

  lemma {:induction false} RealMembers(obs: seq<ParsedServer>, o: ParsedServer)
    ensures o in Real(obs) <==> o in obs && ServerType(o.typ)
  {
    if obs != [] {
      ServersAreReal(obs[0].typ);
      RealMembers(obs[1..], o);
      assert obs == [obs[0]] + obs[1..];
    }
  }

  lemma {:induction false} RealSplit(a: seq<ParsedServer>, b: seq<ParsedServer>)
    ensures Real(a + b) == Real(a) + Real(b)
  {
    if a == [] {
      assert a + b == b;
    } else {
      var first, rest := a[0], a[1..];
      RealSplit(rest, b);
      RealStep(first, rest);
      RealStep(first, rest + b);
      assert a == [first] + rest && a + b == [first] + (rest + b);
    }
  }

  lemma RealStep(first: ParsedServer, rest: seq<ParsedServer>)
    ensures Real([first] + rest) == (if IsSystem(first.typ) then [] else [first]) + Real(rest)
  {
    assert ([first] + rest)[1..] == rest;
  }

  lemma RealAround(before: seq<ParsedServer>, s: ParsedServer, after: seq<ParsedServer>)
    ensures Real(before + [s] + after) == Real(before) + ((if IsSystem(s.typ) then [] else [s]) + Real(after))
  {
    assert before + [s] + after == before + ([s] + after);
    RealSplit(before, [s] + after);
    RealStep(s, after);
  }

  lemma AddOfTheReal(b: Box, c: Parsed, d: Parsed, override: Tag, selectors: seq<Tag>)
    requires Real(c.outbounds) == Real(d.outbounds) && c.endpoints == d.endpoints
    ensures Add(b, c, override, selectors) == Add(b, d, override, selectors)
  {
  }

  /** A group, a direct or block outbound or DNS in the content adds nothing, wherever it stands. */
  lemma SystemIsNotAdded(b: Box, before: seq<ParsedServer>, s: ParsedServer, after: seq<ParsedServer>,
          endpoints: seq<ParsedServer>, override: Tag, selectors: seq<Tag>)
    requires s.typ == "selector" || s.typ == "urltest" || s.typ == "direct" || s.typ == "block" || s.typ == "dns"
    ensures Add(b, Parsed(before + [s] + after, endpoints), override, selectors)
            == Add(b, Parsed(before + after, endpoints), override, selectors)
  {
    RealAround(before, s, after);
    RealSplit(before, after);
    AddOfTheReal(b, Parsed(before + [s] + after, endpoints), Parsed(before + after, endpoints), override, selectors);
  }

  lemma MainOfTheReal(b: Box, c: Parsed, override: Tag, s: ParsedServer)
    requires Real(c.outbounds) != [] && Real(c.outbounds)[0] == s
    ensures Add(b, c, override, []).1 == Some(if override == "" then s.tag else override)
  {
  }

  /** The first outbound that is none of these is the main, and it answers to the requested tag. */
  lemma FirstServerIsTheMain(b: Box, before: seq<ParsedServer>, s: ParsedServer, after: seq<ParsedServer>,
          endpoints: seq<ParsedServer>, override: Tag)
    requires forall i :: 0 <= i < |before| ==> !ServerType(before[i].typ)
    requires ServerType(s.typ)
    ensures Add(b, Parsed(before + [s] + after, endpoints), override, []).1
            == Some(if override == "" then s.tag else override)
  {
    NoneReal(before);
    ServersAreReal(s.typ);
    RealAround(before, s, after);
    MainOfTheReal(b, Parsed(before + [s] + after, endpoints), override, s);
  }

  lemma {:induction false} NoneReal(before: seq<ParsedServer>)
    requires forall i :: 0 <= i < |before| ==> !ServerType(before[i].typ)
    ensures Real(before) == []
  {
    if before != [] {
      ServersAreReal(before[0].typ);
      NoneReal(before[1..]);
    }
  }

  // ---- Runs of adds and removes ----

  /** What a request may bring: one server on its own, as an outbound or an endpoint, or a
      main with the helper it dials through. */
  datatype Shape = Lone(typ: string) | Endpoint(typ: string) | Pair(typ: string, helper: string)

  predicate ServerType(typ: string) {
    typ != "selector" && typ != "urltest" && typ != "direct" && typ != "block" && typ != "dns"
  }

  predicate WellShaped(shape: Shape) { ServerType(shape.typ) && (shape.Pair? ==> ServerType(shape.helper)) }

  lemma ServersAreReal(typ: string)
    ensures ServerType(typ) <==> !IsSystem(typ)
  {
  }

  function ContentOf(shape: Shape, tag: Tag, helper: Tag): Parsed {
    match shape
    case Lone(t) => Parsed([ParsedServer(tag, t, "")], [])
    case Endpoint(t) => Parsed([], [ParsedServer(tag, t, "")])
    case Pair(t, h) => Parsed([ParsedServer(tag, t, helper), ParsedServer(helper, h, "")], [])
  }

  function HelperTag(tag: Tag, shape: Shape): Tag
    requires shape.Pair?
  {
    tag + HELPER_MARK + shape.helper
  }

  /** The outbounds and endpoints an add of this shape creates. */
  function NewOutbounds(tag: Tag, shape: Shape): map<Tag, Outbound> {
    match shape
    case Lone(t) => map[tag := Server(t, "")]
    case Endpoint(_) => map[]
    case Pair(t, h) => map[tag := Server(t, HelperTag(tag, shape))][HelperTag(tag, shape) := Server(h, "")]
  }

  function NewEndpoints(tag: Tag, shape: Shape): map<Tag, Tag> {
    if shape.Endpoint? then map[tag := ""] else map[]
  }

  /** No tag the add creates is known or mentioned in the box. */
  ghost predicate Fresh(b: Box, tag: Tag, shape: Shape) {
    tag != "" && forall t :: t in NewTags(tag, shape) ==> Untouched(b, t)
  }

  function NewTags(tag: Tag, shape: Shape): set<Tag> {
    if shape.Pair? then {tag, HelperTag(tag, shape)} else {tag}
  }

  lemma NewOutboundsTags(tag: Tag, shape: Shape)
    ensures NewOutbounds(tag, shape).Keys == if shape.Endpoint? then {} else NewTags(tag, shape)
    ensures NewEndpoints(tag, shape).Keys == if shape.Endpoint? then {tag} else {}
  {
  }

  ghost predicate Untouched(b: Box, t: Tag) {
    && !Known(b, t)
    && (forall x :: !Uses(b, x, t))
    && (forall x :: x in b.outbounds && b.outbounds[x].Selector? ==> b.outbounds[x].selected != t)
  }

  ghost predicate AreSelectors(m: map<Tag, Outbound>, tags: seq<Tag>) {
    forall t :: t in tags ==> t in m && m[t].Selector?
  }

  function JoinedBy(m: map<Tag, Outbound>, selectors: seq<Tag>, tag: Tag): map<Tag, Outbound> {
    map t | t in m :: if t in selectors && m[t].Selector? then AddMember(m[t], tag) else m[t]
  }

  lemma {:induction false} JoinIsPointwise(m: map<Tag, Outbound>, selectors: seq<Tag>, tag: Tag)
    requires AreSelectors(m, selectors)
    ensures Join(m, selectors, tag) == (JoinedBy(m, selectors, tag), true)
  {
    if selectors == [] {
      assert JoinedBy(m, selectors, tag) == m;
    } else {
      var m' := m[selectors[0] := AddMember(m[selectors[0]], tag)];
      JoinIsPointwise(m', selectors[1..], tag);
      assert JoinedBy(m', selectors[1..], tag) == JoinedBy(m, selectors, tag);
    }
  }

  /** What Create and Retag make of each shape, before the selectors. */
  lemma CreatedByLone(b: Box, typ: string, tag: Tag, parsedTag: Tag)
    requires !IsSystem(typ) && tag != ""
    ensures var servers := Real(ContentOf(Lone(typ), parsedTag, "").outbounds);
            && servers != [] && Retag(servers, tag)[0].tag == tag
            && CreateAll(b.outbounds, Retag(servers, tag)) == b.outbounds + NewOutbounds(tag, Lone(typ))
  {
  }

  lemma CreatedByPair(b: Box, typ: string, htyp: string, tag: Tag, helper: Tag, parsedTag: Tag)
    requires !IsSystem(typ) && !IsSystem(htyp) && tag != "" && helper != ""
    ensures var servers := Real(ContentOf(Pair(typ, htyp), parsedTag, helper).outbounds);
            && servers != [] && Retag(servers, tag)[0].tag == tag
            && CreateAll(b.outbounds, Retag(servers, tag)) == b.outbounds + NewOutbounds(tag, Pair(typ, htyp))
  {
    var main, aide := ParsedServer(parsedTag, typ, helper), ParsedServer(helper, htyp, "");
    assert [main, aide][1..] == [aide] && [aide][1..] == [];
    assert Real([aide]) == [aide];
    assert Real([main, aide]) == [main] + [aide];
    var ht := HelperTag(tag, Pair(typ, htyp));
    var main', aide' := ParsedServer(tag, typ, ht), ParsedServer(ht, htyp, "");
    assert FirstTagged([aide], helper) == 0;
    assert Retag([main, aide], tag) == [main', aide'];
    assert [main', aide'][1..] == [aide'] && [aide'][1..] == [];
    var m1 := b.outbounds[tag := Server(typ, ht)];
    assert CreateAll(m1, [aide']) == m1[ht := Server(htyp, "")];
    assert b.outbounds + NewOutbounds(tag, Pair(typ, htyp)) == m1[ht := Server(htyp, "")];
  }

  lemma AddOfServers(b: Box, content: Parsed, tag: Tag, selectors: seq<Tag>, created: map<Tag, Outbound>)
    requires content.endpoints == [] && Real(content.outbounds) != []
    requires Retag(Real(content.outbounds), tag)[0].tag == tag
    requires CreateAll(b.outbounds, Retag(Real(content.outbounds), tag)) == created
    requires AreSelectors(created, selectors)
    ensures Add(b, content, tag, selectors) == (Box(JoinedBy(created, selectors, tag), b.endpoints), Some(tag))
  {
    JoinIsPointwise(created, selectors, tag);
  }

  /** An add of one of the shapes under a fresh tag, spelled out. */
  lemma AddOfShape(b: Box, shape: Shape, tag: Tag, helper: Tag, parsedTag: Tag, selectors: seq<Tag>)
    requires WellShaped(shape) && Fresh(b, tag, shape) && AreSelectors(b.outbounds, selectors)
    requires shape.Pair? ==> helper != ""
    ensures Add(b, ContentOf(shape, parsedTag, helper), tag, selectors)
            == (Box(JoinedBy(b.outbounds + NewOutbounds(tag, shape), selectors, tag),
                    b.endpoints + NewEndpoints(tag, shape)), Some(tag))
  {
    var created := b.outbounds + NewOutbounds(tag, shape);
    assert AreSelectors(created, selectors) by {
      NewOutboundsTags(tag, shape);
    }
    if shape.Endpoint? {
      AddOfEndpoint(b, shape.typ, tag, parsedTag, selectors);
    } else {
      AddOfOutbounds(b, shape, tag, helper, parsedTag, selectors);
    }
  }

  lemma AddOfOutbounds(b: Box, shape: Shape, tag: Tag, helper: Tag, parsedTag: Tag, selectors: seq<Tag>)
    requires !shape.Endpoint? && WellShaped(shape) && tag != "" && (shape.Pair? ==> helper != "")
    requires AreSelectors(b.outbounds + NewOutbounds(tag, shape), selectors)
    ensures Add(b, ContentOf(shape, parsedTag, helper), tag, selectors)
            == (Box(JoinedBy(b.outbounds + NewOutbounds(tag, shape), selectors, tag), b.endpoints + map[]), Some(tag))
  {
    ServersAreReal(shape.typ);
    if shape.Lone? {
      CreatedByLone(b, shape.typ, tag, parsedTag);
    } else {
      ServersAreReal(shape.helper);
      CreatedByPair(b, shape.typ, shape.helper, tag, helper, parsedTag);
    }
    assert b.endpoints + map[] == b.endpoints;
    AddOfServers(b, ContentOf(shape, parsedTag, helper), tag, selectors, b.outbounds + NewOutbounds(tag, shape));
  }

  lemma AddOfEndpoint(b: Box, typ: string, tag: Tag, parsedTag: Tag, selectors: seq<Tag>)
    requires tag != "" && AreSelectors(b.outbounds, selectors)
    ensures Add(b, ContentOf(Endpoint(typ), parsedTag, ""), tag, selectors)
            == (Box(JoinedBy(b.outbounds + map[], selectors, tag), b.endpoints + map[tag := ""]), Some(tag))
  {
    var one, renamed := [ParsedServer(parsedTag, typ, "")], [ParsedServer(tag, typ, "")];
    assert one[0 := one[0].(tag := tag)] == renamed && renamed[1..] == [];
    assert b.outbounds + map[] == b.outbounds;
    assert CreateEndpoints(b.endpoints, renamed) == b.endpoints + map[tag := ""];
    JoinIsPointwise(b.outbounds, selectors, tag);
  }

  lemma {:induction false} WithoutAbsent(ms: seq<Tag>, tag: Tag)
    requires tag !in ms
    ensures Without(ms, tag) == ms && Without(ms + [tag], tag) == ms
  {
    if ms == [] {
      assert [tag][1..] == [] && ms + [tag] == [tag];
    } else {
      WithoutAbsent(ms[1..], tag);
      assert (ms + [tag])[1..] == ms[1..] + [tag];
    }
  }

  lemma MembershipUndone(o: Outbound, tag: Tag, joined: bool)
    requires o.Selector? ==> tag !in o.members && o.selected != tag
    ensures RemoveMember(if o.Selector? && joined then AddMember(o, tag) else o, tag) == o
  {
    if o.Selector? {
      WithoutAbsent(o.members, tag);
    }
  }

  lemma MembershipsUndone(b: Box, shape: Shape, tag: Tag, selectors: seq<Tag>)
    requires Untouched(b, tag)
    ensures DropMemberships(JoinedBy(b.outbounds + NewOutbounds(tag, shape), selectors, tag), tag)
            == b.outbounds + NewOutbounds(tag, shape)
  {
    var all := b.outbounds + NewOutbounds(tag, shape);
    forall t | t in all
      ensures RemoveMember(if t in selectors && all[t].Selector? then AddMember(all[t], tag) else all[t], tag) == all[t]
    {
      if t !in NewOutbounds(tag, shape) {
        assert !Uses(b, t, tag);
        MembershipUndone(b.outbounds[t], tag, t in selectors);
      }
    }
  }

  /** Taking out again what was just added restores the box: outbounds, endpoints, the order
      of every selector's members, and every selection. */
  lemma AddThenRemoveRestores(b: Box, shape: Shape, tag: Tag, helper: Tag, parsedTag: Tag, selectors: seq<Tag>)
    requires WellShaped(shape) && Fresh(b, tag, shape) && AreSelectors(b.outbounds, selectors)
    requires shape.Pair? ==> helper != ""
    ensures Remove(Add(b, ContentOf(shape, parsedTag, helper), tag, selectors).0, tag) == (b, true)
  {
    AddOfShape(b, shape, tag, helper, parsedTag, selectors);
    assert Untouched(b, tag) by {
      assert tag in NewTags(tag, shape);
    }
    MembershipsUndone(b, shape, tag, selectors);
    NewOutboundsTags(tag, shape);
    var added := Box(JoinedBy(b.outbounds + NewOutbounds(tag, shape), selectors, tag),
                     b.endpoints + NewEndpoints(tag, shape));
    match shape {
      case Lone(_) =>
        UndoLone(b, tag, shape, added);
      case Endpoint(_) =>
        UndoEndpoint(b, tag, shape, added);
      case Pair(_, _) =>
        UndoPair(b, tag, shape, added);
    }
  }

  lemma UndoLone(b: Box, tag: Tag, shape: Shape, added: Box)
    requires shape.Lone? && Untouched(b, tag) && added.endpoints == b.endpoints + map[]
    requires tag in added.outbounds && added.outbounds[tag] == Server(shape.typ, "")
    requires DropMemberships(added.outbounds, tag) == b.outbounds + NewOutbounds(tag, shape)
    ensures Remove(added, tag) == (b, true)
  {
    assert OwnHelpers([], tag) == [];
    assert b.outbounds + NewOutbounds(tag, shape) - {tag} == b.outbounds;
    assert added.endpoints == b.endpoints;
    NotDependedOn(b, tag);
  }

  lemma UndoEndpoint(b: Box, tag: Tag, shape: Shape, added: Box)
    requires shape.Endpoint? && Untouched(b, tag) && added.endpoints == b.endpoints + map[tag := ""]
    requires tag !in added.outbounds
    requires DropMemberships(added.outbounds, tag) == b.outbounds + map[]
    ensures Remove(added, tag) == (b, true)
  {
    assert OwnHelpers([], tag) == [];
    assert b.outbounds + map[] == b.outbounds;
    assert added.endpoints - {tag} == b.endpoints;
  }

  lemma UndoPair(b: Box, tag: Tag, shape: Shape, added: Box)
    requires shape.Pair? && Fresh(b, tag, shape) && added.endpoints == b.endpoints + map[]
    requires tag in added.outbounds && added.outbounds[tag] == Server(shape.typ, HelperTag(tag, shape))
    requires DropMemberships(added.outbounds, tag) == b.outbounds + NewOutbounds(tag, shape)
    ensures Remove(added, tag) == (b, true)
  {
    var ht := HelperTag(tag, shape);
    assert {tag, ht} == NewTags(tag, shape) && Untouched(b, tag) && Untouched(b, ht);
    assert added.endpoints == b.endpoints;
    var left := Box(b.outbounds[ht := Server(shape.helper, "")], b.endpoints);
    assert b.outbounds + NewOutbounds(tag, shape) - {tag} == left.outbounds;
    forall x
      ensures !Uses(left, x, tag) && (x != ht ==> !Uses(left, x, ht))
    {
      assert !Uses(b, x, tag) && !Uses(b, x, ht);
    }
    NotDependedOn(left, tag);
    DropLoneHelper(left, tag, ht);
    assert left.outbounds - {ht} == b.outbounds;
  }

  lemma NotDependedOn(b: Box, tag: Tag)
    requires forall x :: !Uses(b, x, tag)
    ensures !DependedOn(b.outbounds, tag)
  {
    if t :| t in b.outbounds && tag in Dependencies(b.outbounds[t]) {
      assert Uses(b, t, tag);
    }
  }

  lemma DropLoneHelper(b: Box, tag: Tag, ht: Tag)
    requires GoStrings.HasPrefix(ht, tag + HELPER_MARK) && !Referenced(b, ht)
    ensures OwnHelpers([ht], tag) == [ht]
    ensures DropHelpers(b, [ht]) == b.(outbounds := b.outbounds - {ht})
  {
  }

  datatype Op =
    | AddOp(shape: Shape, tag: Tag, helper: Tag, parsedTag: Tag, selectors: seq<Tag>)
    | RemoveOp(tag: Tag)

  type Hot = map<Tag, Shape>

  /** An add brings one of the shapes under a fresh tag, a remove names a hot-added main. */
  ghost predicate Allowed(b: Box, hot: Hot, op: Op) {
    match op
    case AddOp(shape, tag, helper, _, selectors) =>
      WellShaped(shape) && Fresh(b, tag, shape) && AreSelectors(b.outbounds, selectors)
      && (shape.Pair? ==> helper != "")
    case RemoveOp(tag) => tag in hot
  }

  ghost function Apply(b: Box, op: Op): (Box, bool) {
    match op
    case AddOp(shape, tag, helper, parsedTag, selectors) =>
      var (b', r) := Add(b, ContentOf(shape, parsedTag, helper), tag, selectors);
      (b', r == Some(tag))
    case RemoveOp(tag) => Remove(b, tag)
  }

  function Track(hot: Hot, op: Op): Hot {
    match op
    case AddOp(shape, tag, _, _, _) => hot[tag := shape]
    case RemoveOp(tag) => hot - {tag}
  }

  function OutTags(m: Tag, shape: Shape): set<Tag> { if shape.Endpoint? then {} else NewTags(m, shape) }

  function EndTags(m: Tag, shape: Shape): set<Tag> { if shape.Endpoint? then {m} else {} }

  /** The box is the base, whose servers and endpoints are as they were, plus exactly what the
      hot-added mains brought; nobody dials through a hot-added main, and its helper is its own. */
  ghost predicate Extends(base: Box, b: Box, hot: Hot) {
    && Resolvable(b) && Holds(base, b, hot) && BaseKept(base, b) && Apart(hot)
    && (forall m :: m in hot ==> Own(base, b, m, hot[m]))
  }

  ghost predicate Holds(base: Box, b: Box, hot: Hot) {
    && (forall t :: t in b.outbounds <==> t in base.outbounds || BroughtOut(hot, t))
    && (forall t :: t in b.endpoints <==> t in base.endpoints || BroughtEnd(hot, t))
  }

  ghost predicate BroughtOut(hot: Hot, t: Tag) { exists m :: m in hot && t in OutTags(m, hot[m]) }

  ghost predicate BroughtEnd(hot: Hot, t: Tag) { exists m :: m in hot && t in EndTags(m, hot[m]) }

  ghost predicate BaseKept(base: Box, b: Box) {
    && (forall t :: t in base.outbounds ==>
          t in b.outbounds
          && if base.outbounds[t].Server? then b.outbounds[t] == base.outbounds[t] else b.outbounds[t].Selector?)
    && (forall t :: t in base.endpoints ==> t in b.endpoints && b.endpoints[t] == base.endpoints[t])
  }

  ghost predicate Apart(hot: Hot) {
    forall m, n :: m in hot && n in hot && m != n ==> NewTags(m, hot[m]) !! NewTags(n, hot[n])
  }

  ghost predicate Own(base: Box, b: Box, m: Tag, shape: Shape) {
    && m != ""
    && (forall t :: t in NewTags(m, shape) ==> !Known(base, t))
    && (match shape
        case Lone(t) => m in b.outbounds && m !in b.endpoints && b.outbounds[m] == Server(t, "")
        case Endpoint(_) => m in b.endpoints && m !in b.outbounds && b.endpoints[m] == ""
        case Pair(t, h) =>
          var ht := HelperTag(m, shape);
          && m in b.outbounds && m !in b.endpoints && b.outbounds[m] == Server(t, ht)
          && ht in b.outbounds && ht !in b.endpoints && b.outbounds[ht] == Server(h, "")
          && (forall x :: Uses(b, x, ht) ==> x == m))
    && (forall x :: !Dials(b, x, m))
  }

  /** `b'` is `b` after an add, as AddOfShape spells it out. */
  predicate Added(b: Box, shape: Shape, tag: Tag, selectors: seq<Tag>, b': Box) {
    b' == Box(JoinedBy(b.outbounds + NewOutbounds(tag, shape), selectors, tag),
              b.endpoints + NewEndpoints(tag, shape))
  }

  /** After an add the tags are known, and the rest depends on what it did, or on the new main
      as a selector does. */
  lemma AddedUses(b: Box, shape: Shape, tag: Tag, selectors: seq<Tag>, b': Box, x: Tag, d: Tag)
    requires Fresh(b, tag, shape) && Added(b, shape, tag, selectors, b') && Uses(b', x, d)
    ensures Uses(b, x, d) || (d == tag && !Dials(b', x, d)) || (shape.Pair? && x == tag && d == HelperTag(tag, shape))
  {
  }

  lemma AddKeepsResolvable(b: Box, shape: Shape, tag: Tag, selectors: seq<Tag>, b': Box)
    requires Resolvable(b) && Fresh(b, tag, shape) && Added(b, shape, tag, selectors, b')
    ensures Resolvable(b')
  {
    NewOutboundsTags(tag, shape);
    forall x, d | Uses(b', x, d)
      ensures Known(b', d)
    {
      AddedUses(b, shape, tag, selectors, b', x, d);
    }
  }

  lemma AddKeepsOwn(base: Box, b: Box, m: Tag, ms: Shape, shape: Shape, tag: Tag, selectors: seq<Tag>, b': Box)
    requires Own(base, b, m, ms) && Fresh(b, tag, shape) && Added(b, shape, tag, selectors, b')
    ensures Own(base, b', m, ms) && NewTags(m, ms) !! NewTags(tag, shape)
  {
    NewOutboundsTags(tag, shape);
    forall t | t in NewTags(m, ms)
      ensures Known(b, t) && t !in NewTags(tag, shape)
    {
    }
    assert tag in NewTags(tag, shape);
    forall x
      ensures !Dials(b', x, m)
    {
      assert !Dials(b, x, m) && m in NewTags(m, ms);
    }
    if ms.Pair? {
      var ht := HelperTag(m, ms);
      assert ht in NewTags(m, ms);
      HelperStaysOwn(b, m, ht, shape, tag, selectors, b');
    }
  }

  lemma HelperStaysOwn(b: Box, m: Tag, ht: Tag, shape: Shape, tag: Tag, selectors: seq<Tag>, b': Box)
    requires Fresh(b, tag, shape) && Added(b, shape, tag, selectors, b') && ht !in NewTags(tag, shape)
    requires forall x :: Uses(b, x, ht) ==> x == m
    ensures forall x :: Uses(b', x, ht) ==> x == m
  {
    forall x | Uses(b', x, ht)
      ensures x == m
    {
      AddedUses(b, shape, tag, selectors, b', x, ht);
    }
  }

  lemma NewIsOwn(base: Box, b: Box, shape: Shape, tag: Tag, selectors: seq<Tag>, b': Box)
    requires BaseKept(base, b) && Fresh(b, tag, shape) && Added(b, shape, tag, selectors, b')
    ensures Own(base, b', tag, shape)
  {
    NewOutboundsTags(tag, shape);
    assert tag in NewTags(tag, shape) && Untouched(b, tag);
    forall x
      ensures !Dials(b', x, tag)
    {
      if Dials(b', x, tag) {
        AddedDials(b, shape, tag, selectors, b', x);
      }
    }
    if shape.Pair? {
      var ht := HelperTag(tag, shape);
      assert ht in NewTags(tag, shape) && Untouched(b, ht);
      forall x | Uses(b', x, ht)
        ensures x == tag
      {
        AddedUses(b, shape, tag, selectors, b', x, ht);
      }
    }
  }

  lemma AddedDials(b: Box, shape: Shape, tag: Tag, selectors: seq<Tag>, b': Box, x: Tag)
    requires Fresh(b, tag, shape) && Added(b, shape, tag, selectors, b')
    ensures !Dials(b', x, tag)
  {
    NewOutboundsTags(tag, shape);
    assert tag in NewTags(tag, shape) && !Uses(b, x, tag);
  }

  lemma BroughtGrows(hot: Hot, tag: Tag, shape: Shape, t: Tag)
    requires tag !in hot
    ensures BroughtOut(hot[tag := shape], t) <==> t in OutTags(tag, shape) || BroughtOut(hot, t)
    ensures BroughtEnd(hot[tag := shape], t) <==> t in EndTags(tag, shape) || BroughtEnd(hot, t)
  {
    var hot' := hot[tag := shape];
    assert tag in hot' && hot'[tag] == shape;
    if m :| m in hot && t in OutTags(m, hot[m]) {
      assert m in hot' && t in OutTags(m, hot'[m]);
    }
    if m :| m in hot && t in EndTags(m, hot[m]) {
      assert m in hot' && t in EndTags(m, hot'[m]);
    }
  }

  lemma BroughtShrinks(hot: Hot, tag: Tag, t: Tag)
    requires tag in hot && Apart(hot)
    ensures BroughtOut(hot - {tag}, t) <==> BroughtOut(hot, t) && t !in OutTags(tag, hot[tag])
    ensures BroughtEnd(hot - {tag}, t) <==> BroughtEnd(hot, t) && t !in EndTags(tag, hot[tag])
  {
    var hot' := hot - {tag};
    assert hot == hot'[tag := hot[tag]];
    BroughtGrows(hot', tag, hot[tag], t);
    if m :| m in hot' && (t in OutTags(m, hot'[m]) || t in EndTags(m, hot'[m])) {
      assert m in hot && t in NewTags(m, hot[m]);
    }
  }

  lemma AddHolds(base: Box, b: Box, hot: Hot, shape: Shape, tag: Tag, selectors: seq<Tag>, b': Box)
    requires Holds(base, b, hot) && Added(b, shape, tag, selectors, b') && tag !in hot
    ensures Holds(base, b', hot[tag := shape])
  {
    NewOutboundsTags(tag, shape);
    assert b'.outbounds.Keys == b.outbounds.Keys + OutTags(tag, shape);
    assert b'.endpoints.Keys == b.endpoints.Keys + EndTags(tag, shape);
    forall t
      ensures t in b'.outbounds <==> t in base.outbounds || BroughtOut(hot[tag := shape], t)
      ensures t in b'.endpoints <==> t in base.endpoints || BroughtEnd(hot[tag := shape], t)
    {
      BroughtGrows(hot, tag, shape, t);
    }
  }

  lemma AddKeepsBase(base: Box, b: Box, shape: Shape, tag: Tag, selectors: seq<Tag>, b': Box)
    requires BaseKept(base, b) && Fresh(b, tag, shape) && Added(b, shape, tag, selectors, b')
    ensures BaseKept(base, b')
  {
    NewOutboundsTags(tag, shape);
    forall t | t in NewTags(tag, shape)
      ensures !Known(base, t)
    {
    }
    assert tag in NewTags(tag, shape);
  }

  lemma AddExtends(base: Box, b: Box, hot: Hot, op: Op)
    requires op.AddOp? && Extends(base, b, hot) && Allowed(b, hot, op)
    ensures Apply(b, op).1 && Extends(base, Apply(b, op).0, Track(hot, op))
  {
    var AddOp(shape, tag, helper, parsedTag, selectors) := op;
    AddOfShape(b, shape, tag, helper, parsedTag, selectors);
    AddedExtends(base, b, hot, shape, tag, selectors, Apply(b, op).0);
  }

  lemma AddedExtends(base: Box, b: Box, hot: Hot, shape: Shape, tag: Tag, selectors: seq<Tag>, b': Box)
    requires Extends(base, b, hot) && Fresh(b, tag, shape) && Added(b, shape, tag, selectors, b')
    requires WellShaped(shape) && AreSelectors(b.outbounds, selectors)
    ensures Extends(base, b', hot[tag := shape])
  {
    FreshIsNotHot(base, b, hot, shape, tag);
    AddKeepsResolvable(b, shape, tag, selectors, b');
    AddKeepsBase(base, b, shape, tag, selectors, b');
    AddHolds(base, b, hot, shape, tag, selectors, b');
    NewIsOwn(base, b, shape, tag, selectors, b');
    AddKeepsAllOwn(base, b, hot, shape, tag, selectors, b');
  }

  lemma FreshIsNotHot(base: Box, b: Box, hot: Hot, shape: Shape, tag: Tag)
    requires Extends(base, b, hot) && Fresh(b, tag, shape)
    ensures tag !in hot
  {
    assert tag in hot ==> Own(base, b, tag, hot[tag]);
    assert tag in NewTags(tag, shape);
  }

  lemma AddKeepsAllOwn(base: Box, b: Box, hot: Hot, shape: Shape, tag: Tag, selectors: seq<Tag>, b': Box)
    requires Apart(hot) && (forall m :: m in hot ==> Own(base, b, m, hot[m]))
    requires Fresh(b, tag, shape) && Added(b, shape, tag, selectors, b')
    ensures Apart(hot[tag := shape]) && (forall m :: m in hot ==> Own(base, b', m, hot[m]))
  {
    forall m | m in hot
      ensures Own(base, b', m, hot[m]) && NewTags(m, hot[m]) !! NewTags(tag, shape)
    {
      AddKeepsOwn(base, b, m, hot[m], shape, tag, selectors, b');
    }
  }

  /** `b'` is `b` without the main `tag` and what it brought. */
  predicate Removed(b: Box, shape: Shape, tag: Tag, b': Box) {
    b' == Box(DropMemberships(b.outbounds, tag) - OutTags(tag, shape), b.endpoints - EndTags(tag, shape))
  }

  /** Taking out a hot-added main takes out exactly what its add brought. */
  lemma RemoveOfHot(base: Box, b: Box, tag: Tag, shape: Shape)
    requires Own(base, b, tag, shape)
    ensures Remove(b, tag).1 && Removed(b, shape, tag, Remove(b, tag).0)
  {
    var members := DropMemberships(b.outbounds, tag);
    assert OwnHelpers([], tag) == [];
    if shape.Endpoint? {
      assert members - OutTags(tag, shape) == members;
    } else {
      assert b.endpoints - EndTags(tag, shape) == b.endpoints;
      var left := Box(members - {tag}, b.endpoints);
      forall x
        ensures !Uses(left, x, tag)
      {
        assert !Dials(b, x, tag);
      }
      NotDependedOn(left, tag);
      if shape.Pair? {
        HelperIsLone(base, b, tag, shape, left);
        DropLoneHelper(left, tag, HelperTag(tag, shape));
        assert left.outbounds - {HelperTag(tag, shape)} == members - OutTags(tag, shape);
      }
    }
  }

  lemma HelperIsLone(base: Box, b: Box, tag: Tag, shape: Shape, left: Box)
    requires shape.Pair? && Own(base, b, tag, shape)
    requires left == Box(DropMemberships(b.outbounds, tag) - {tag}, b.endpoints)
    ensures !Referenced(left, HelperTag(tag, shape))
  {
    var ht := HelperTag(tag, shape);
    if x :| x != ht && Uses(left, x, ht) {
      assert Uses(b, x, ht);
    }
  }

  /** What is left depends on nothing that went. */
  lemma RemoveKeepsWhole(base: Box, b: Box, tag: Tag, shape: Shape, b': Box)
    requires Resolvable(b) && Own(base, b, tag, shape) && Removed(b, shape, tag, b')
    ensures Resolvable(b')
  {
    forall x, d | Uses(b', x, d)
      ensures Known(b', d)
    {
      assert Uses(b, x, d) && !Dials(b, x, tag);
    }
  }

  lemma RemoveKeepsOwn(base: Box, b: Box, m: Tag, ms: Shape, tag: Tag, shape: Shape, b': Box)
    requires Own(base, b, m, ms) && Removed(b, shape, tag, b') && NewTags(m, ms) !! NewTags(tag, shape)
    ensures Own(base, b', m, ms)
  {
    assert m in NewTags(m, ms) && tag in NewTags(tag, shape);
    forall x
      ensures !Dials(b', x, m)
    {
      assert !Dials(b, x, m);
    }
    if ms.Pair? {
      var ht := HelperTag(m, ms);
      assert ht in NewTags(m, ms);
      forall x | Uses(b', x, ht)
        ensures x == m
      {
        assert Uses(b, x, ht);
      }
    }
  }

  lemma RemoveHolds(base: Box, b: Box, hot: Hot, tag: Tag, b': Box)
    requires Holds(base, b, hot) && Apart(hot) && tag in hot && Removed(b, hot[tag], tag, b')
    requires Own(base, b, tag, hot[tag])
    ensures Holds(base, b', hot - {tag})
  {
    forall t
      ensures t in b'.outbounds <==> t in base.outbounds || BroughtOut(hot - {tag}, t)
      ensures t in b'.endpoints <==> t in base.endpoints || BroughtEnd(hot - {tag}, t)
    {
      BroughtShrinks(hot, tag, t);
      assert t in NewTags(tag, hot[tag]) ==> !Known(base, t);
    }
  }

  lemma RemoveExtends(base: Box, b: Box, hot: Hot, tag: Tag)
    requires Extends(base, b, hot) && tag in hot
    ensures Remove(b, tag).1 && Extends(base, Remove(b, tag).0, hot - {tag})
  {
    RemoveOfHot(base, b, tag, hot[tag]);
    var b', hot' := Remove(b, tag).0, hot - {tag};
    RemoveKeepsWhole(base, b, tag, hot[tag], b');
    RemoveHolds(base, b, hot, tag, b');
    forall m | m in hot'
      ensures Own(base, b', m, hot'[m])
    {
      RemoveKeepsOwn(base, b, m, hot[m], tag, hot[tag], b');
    }
    assert BaseKept(base, b') by {
      assert forall t :: t in NewTags(tag, hot[tag]) ==> !Known(base, t);
    }
  }

  ghost function After(b: Box, ops: seq<Op>): Box
    decreases |ops|
  {
    if ops == [] then b else After(Apply(b, ops[0]).0, ops[1..])
  }

  ghost predicate AllAllowed(b: Box, hot: Hot, ops: seq<Op>)
    decreases |ops|
  {
    ops != [] ==> Allowed(b, hot, ops[0]) && AllAllowed(Apply(b, ops[0]).0, Track(hot, ops[0]), ops[1..])
  }

  ghost predicate AllSucceed(b: Box, ops: seq<Op>)
    decreases |ops|
  {
    ops != [] ==> Apply(b, ops[0]).1 && AllSucceed(Apply(b, ops[0]).0, ops[1..])
  }

  function HotAfter(hot: Hot, ops: seq<Op>): Hot
    decreases |ops|
  {
    if ops == [] then hot else HotAfter(Track(hot, ops[0]), ops[1..])
  }

  /** Over every run of adds under fresh tags and removes of hot-added mains each call succeeds,
      every selector member and every detour stays resolvable, and the box holds what it
      started with plus exactly what the mains still added brought: nothing is lost or left
      behind. */
  lemma {:induction false} RunsStayWhole(base: Box, b: Box, hot: Hot, ops: seq<Op>)
    requires Extends(base, b, hot) && AllAllowed(b, hot, ops)
    ensures AllSucceed(b, ops) && Extends(base, After(b, ops), HotAfter(hot, ops))
    decreases |ops|
  {
    if ops != [] {
      if ops[0].AddOp? {
        AddExtends(base, b, hot, ops[0]);
      } else {
        RemoveExtends(base, b, hot, ops[0].tag);
      }
      RunsStayWhole(base, Apply(b, ops[0]).0, Track(hot, ops[0]), ops[1..]);
    }
  }

  lemma EveryBoxExtendsItself(base: Box)
    requires Resolvable(base)
    ensures Extends(base, base, map[])
  {
  }

  // ---- The calls as the code writes them ----

  /** One map update after another: `todo` is still to be cleaned. */
  function DropSome(m: map<Tag, Outbound>, tag: Tag, todo: set<Tag>): map<Tag, Outbound> {
    map t | t in m :: if t in todo then m[t] else RemoveMember(m[t], tag)
  }

  class LiveBox {
    var outbounds: map<Tag, Outbound>
    var endpoints: map<Tag, Tag>

    function View(): Box
      reads this
    {
      Box(outbounds, endpoints)
    }

    constructor (b: Box)
      ensures View() == b
    {
      outbounds, endpoints := b.outbounds, b.endpoints;
    }

    method OutboundTagReferenced(tag: Tag) returns (found: bool)
      ensures found <==> Referenced(View(), tag)
    {
      var todo := outbounds.Keys;
      while todo != {}
        invariant todo <= outbounds.Keys
        invariant forall x :: x in outbounds && x !in todo && x != tag ==> tag !in Dependencies(outbounds[x])
        decreases todo
      {
        var x :| x in todo;
        if x != tag && tag in Dependencies(outbounds[x]) {
          assert Uses(View(), x, tag);
          return true;
        }
        todo := todo - {x};
      }
      todo := endpoints.Keys;
      while todo != {}
        invariant todo <= endpoints.Keys
        invariant forall x :: x in endpoints && x !in todo && x != tag ==> tag !in DetourDeps(endpoints[x])
        decreases todo
      {
        var x :| x in todo;
        if x != tag && tag in DetourDeps(endpoints[x]) {
          assert Uses(View(), x, tag);
          return true;
        }
        todo := todo - {x};
      }
      return false;
    }

    /** resolveRealOutboundTag: from a group to the server that its selection leads to. */
    method ResolveRealOutboundTag(tag: Tag) returns (r: Tag)
      ensures r == if Known(View(), tag) then Hops(View(), tag, MAX_GROUP_HOPS) else ""
    {
      if tag !in outbounds && tag !in endpoints {
        return "";
      }
      r := tag;
      var i := 0;
      while i < MAX_GROUP_HOPS
        invariant 0 <= i <= MAX_GROUP_HOPS
        invariant Hops(View(), r, MAX_GROUP_HOPS - i) == Hops(View(), tag, MAX_GROUP_HOPS)
      {
        if r !in outbounds || outbounds[r].Server? {
          break;
        }
        var now := outbounds[r].selected;
        if now == "" || now == r {
          break;
        }
        r := now;
        i := i + 1;
      }
    }

    method DropMember(tag: Tag)
      modifies this`outbounds
      ensures outbounds == DropMemberships(old(outbounds), tag)
    {
      var todo := outbounds.Keys;
      assert outbounds == DropSome(outbounds, tag, todo);
      while todo != {}
        invariant todo <= old(outbounds).Keys
        invariant outbounds == DropSome(old(outbounds), tag, todo)
        decreases todo
      {
        var t :| t in todo;
        outbounds := outbounds[t := RemoveMember(outbounds[t], tag)];
        todo := todo - {t};
      }
    }

    method DropUnused(helpers: seq<Tag>)
      modifies this`outbounds
      ensures View() == DropHelpers(old(View()), helpers)
    {
      var i := 0;
      while i < |helpers|
        invariant 0 <= i <= |helpers|
        invariant DropHelpers(View(), helpers[i..]) == DropHelpers(old(View()), helpers)
      {
        assert helpers[i..][0] == helpers[i] && helpers[i..][1..] == helpers[i + 1..];
        var used := OutboundTagReferenced(helpers[i]);
        if !used {
          outbounds := outbounds - {helpers[i]};
        }
        i := i + 1;
      }
    }

    method RemoveOutbound(tag: Tag) returns (ok: bool)
      modifies this
      ensures (View(), ok) == Remove(old(View()), tag)
    {
      var helpers := OwnHelpers(DependenciesOf(View(), tag), tag);
      DropMember(tag);
      if tag in outbounds {
        outbounds := outbounds - {tag};
        if DependedOn(outbounds, tag) {
          return false;
        }
      } else if tag in endpoints {
        endpoints := endpoints - {tag};
      } else {
        return false;
      }
      DropUnused(helpers);
      return true;
    }

    method AddOutbound(content: Parsed, override: Tag, selectors: seq<Tag>) returns (r: Option<Tag>)
      modifies this
      ensures (View(), r) == Add(old(View()), content, override, selectors)
    {
      var obs := Real(content.outbounds);
      var eps := content.endpoints;
      if obs == [] && eps == [] {
        return None;
      }
      var mainTag;
      if obs == [] {
        if override != "" {
          eps := eps[0 := eps[0].(tag := override)];
        }
        mainTag := eps[0].tag;
      } else {
        obs := Retag(obs, override);
        mainTag := obs[0].tag;
      }
      CreateServers(obs);
      CreateAllEndpoints(eps);
      var joined := JoinSelectors(selectors, mainTag);
      return if joined then Some(mainTag) else None;
    }

    method CreateServers(obs: seq<ParsedServer>)
      modifies this
      ensures outbounds == CreateAll(old(outbounds), obs) && endpoints == old(endpoints)
    {
      var i := 0;
      while i < |obs|
        invariant 0 <= i <= |obs|
        invariant CreateAll(outbounds, obs[i..]) == CreateAll(old(outbounds), obs)
        invariant endpoints == old(endpoints)
      {
        assert obs[i..][0] == obs[i] && obs[i..][1..] == obs[i + 1..];
        outbounds := outbounds[obs[i].tag := Server(obs[i].typ, obs[i].detour)];
        i := i + 1;
      }
    }

    method CreateAllEndpoints(eps: seq<ParsedServer>)
      modifies this
      ensures endpoints == CreateEndpoints(old(endpoints), eps) && outbounds == old(outbounds)
    {
      var i := 0;
      while i < |eps|
        invariant 0 <= i <= |eps|
        invariant CreateEndpoints(endpoints, eps[i..]) == CreateEndpoints(old(endpoints), eps)
        invariant outbounds == old(outbounds)
      {
        assert eps[i..][0] == eps[i] && eps[i..][1..] == eps[i + 1..];
        endpoints := endpoints[eps[i].tag := eps[i].detour];
        i := i + 1;
      }
    }

    /** Stops at the first tag that is no selector. */
    method JoinSelectors(selectors: seq<Tag>, mainTag: Tag) returns (ok: bool)
      modifies this
      ensures (outbounds, ok) == Join(old(outbounds), selectors, mainTag) && endpoints == old(endpoints)
    {
      var i := 0;
      while i < |selectors|
        invariant 0 <= i <= |selectors|
        invariant Join(outbounds, selectors[i..], mainTag) == Join(old(outbounds), selectors, mainTag)
        invariant endpoints == old(endpoints)
      {
        assert selectors[i..][0] == selectors[i] && selectors[i..][1..] == selectors[i + 1..];
        if selectors[i] !in outbounds || !outbounds[selectors[i]].Selector? {
          return false;
        }
        outbounds := outbounds[selectors[i] := AddMember(outbounds[selectors[i]], mainTag)];
        i := i + 1;
      }
      return true;
    }
  }
}
