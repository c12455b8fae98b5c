/**
 Starting a profile that does not decode: every outbound and endpoint is tried on its own
 and the invalid ones are left out.

 The strict decoder is outside the repository: `valid` says whether one entry of a section
 decodes on its own, `decode` what a whole document decodes to.
 */
module Salvage {
  import opened Common

  type Raw = string

  /** The document one level deep: a key holds a list of entries or something else. */
  datatype Value = Entries(list: seq<Raw>) | Other(text: string)

  type Document = map<string, Value>

  /** What matters of a decoded document. */
  datatype Options = Options(outbounds: seq<Raw>, endpoints: seq<Raw>)

  function Filter(es: seq<Raw>, valid: Raw -> bool): (r: seq<Raw>)
    ensures |r| <= |es|
  {
    if es == [] then []
    else
      var last := es[|es| - 1];
      Filter(es[..|es| - 1], valid) + if valid(last) then [last] else []
  }

  /** The filter shortens the list exactly when some entry is invalid. */
  lemma {:induction false} FilterShortens(es: seq<Raw>, valid: Raw -> bool)
    ensures |Filter(es, valid)| < |es| <==> exists e :: e in es && !valid(e)
  {
    if es != [] {
      var n := |es| - 1;
      FilterShortens(es[..n], valid);
      assert es == es[..n] + [es[n]];
    }
  }

  /** It keeps every occurrence of every valid entry and none of an invalid one. */
  lemma {:induction false} FilterKeeps(es: seq<Raw>, valid: Raw -> bool, e: Raw)
    ensures multiset(Filter(es, valid))[e] == if valid(e) then multiset(es)[e] else 0
  {
    if es != [] {
      var n := |es| - 1;
      FilterKeeps(es[..n], valid, e);
      assert es == es[..n] + [es[n]];
      assert multiset(es) == multiset(es[..n]) + multiset{es[n]};
      var tail := if valid(es[n]) then [es[n]] else [];
      assert multiset(Filter(es[..n], valid) + tail) == multiset(Filter(es[..n], valid)) + multiset(tail);
    }
  }

  /** And it keeps their order: what precedes what is decided piece by piece. */
  lemma {:induction false} FilterSplits(a: seq<Raw>, b: seq<Raw>, valid: Raw -> bool)
    ensures Filter(a + b, valid) == Filter(a, valid) + Filter(b, valid)
  {
    if b == [] {
      assert a + b == a;
    } else {
      var front, e := b[..|b| - 1], b[|b| - 1];
      calc {
        Filter(a + b, valid);
        { assert a + b == (a + front) + [e]; FilterStep(a + front, e, valid); }
        Filter(a + front, valid) + Filter([e], valid);
        { FilterSplits(a, front, valid); }
        (Filter(a, valid) + Filter(front, valid)) + Filter([e], valid);
        Filter(a, valid) + (Filter(front, valid) + Filter([e], valid));
        { FilterStep(front, e, valid); assert b == front + [e]; }
        Filter(a, valid) + Filter(b, valid);
      }
    }
  }

  lemma FilterStep(es: seq<Raw>, e: Raw, valid: Raw -> bool)
    ensures Filter([e], valid) == if valid(e) then [e] else []
    ensures Filter(es + [e], valid) == Filter(es, valid) + Filter([e], valid)
  {
  }

  /** The loop over one section: `kept` grows over the very array that is being read. */
  method FilterInPlace(entries: array<Raw>, valid: Raw -> bool) returns (kept: nat)
    modifies entries
    ensures kept <= entries.Length
    ensures entries[..kept] == Filter(old(entries[..]), valid)
  {
    kept := 0;
    var i := 0;
    while i < entries.Length
      invariant 0 <= kept <= i <= entries.Length
      invariant entries[i..] == old(entries[..])[i..]
      invariant entries[..kept] == Filter(old(entries[..])[..i], valid)
    {
      var entry := entries[i];
      ghost var was := old(entries[..]);
      assert entry == was[i] by { assert entries[i..][0] == was[i..][0]; }
      assert was[..i + 1][..i] == was[..i];
      assert was[i..][1..] == was[i + 1..] && entries[i..][1..] == entries[i + 1..];
      if valid(entry) {
        entries[kept] := entry;
        kept := kept + 1;
      }
      i := i + 1;
    }
    assert old(entries[..])[..entries.Length] == old(entries[..]);
  }

  method FilterSection(list: seq<Raw>, valid: Raw -> bool) returns (kept: seq<Raw>)
    ensures kept == Filter(list, valid)
  {
    var entries := new Raw[|list|](i requires 0 <= i < |list| => list[i]);
    assert entries[..] == list;
    var n := FilterInPlace(entries, valid);
    kept := entries[..n];
  }

  const SECTIONS: seq<string> := ["outbounds", "endpoints"]

  predicate IsSection(k: string) { k == "outbounds" || k == "endpoints" }

  function CleanedValue(v: Value, valid: Raw -> bool): Value {
    if v.Entries? then Entries(Filter(v.list, valid)) else v
  }

  /** The document with the invalid entries of both sections left out. */
  function Cleaned(doc: Document, valid: (string, Raw) -> bool): Document {
    map k | k in doc :: if IsSection(k) then CleanedValue(doc[k], e => valid(k, e)) else doc[k]
  }

  /** A section of the document holds an invalid entry. */
  predicate Broken(doc: Document, valid: (string, Raw) -> bool, k: string) {
    k in doc && doc[k].Entries? && exists e :: e in doc[k].list && !valid(k, e)
  }

  predicate IsList(doc: Document, k: string) { k in doc ==> doc[k].Entries? }

  /** One section: its value rebuilt, and whether entries were dropped. */
  method SalvageSection(doc: Document, section: string, valid: (string, Raw) -> bool)
    returns (v: Value, dropped: nat)
    requires section in doc && doc[section].Entries?
    ensures v == CleanedValue(doc[section], e => valid(section, e))
    ensures dropped > 0 <==> Broken(doc, valid, section)
  {
    var list := doc[section].list;
    var keep := e => valid(section, e);
    var kept := FilterSection(list, keep);
    FilterShortens(list, keep);
    v := Entries(kept);
    dropped := |list| - |kept|;
  }

  /** Salvaging succeeds exactly when both sections are lists, some entry of them is invalid,
      and the document with exactly the valid ones left decodes to at least one outbound or
      endpoint. */
  method SalvageSingOptions(doc: Document, valid: (string, Raw) -> bool, decode: Document -> Option<Options>)
    returns (r: Option<Options>)
    ensures r.Some? <==>
              && IsList(doc, "outbounds") && IsList(doc, "endpoints")
              && (Broken(doc, valid, "outbounds") || Broken(doc, valid, "endpoints"))
              && decode(Cleaned(doc, valid)).Some?
              && decode(Cleaned(doc, valid)).value != Options([], [])
    ensures r.Some? ==> r == decode(Cleaned(doc, valid))
  {
    var shallow := doc;
    var dropped := 0;
    var s := 0;
    while s < |SECTIONS|
      invariant 0 <= s <= |SECTIONS| && shallow.Keys == doc.Keys
      invariant s >= 1 ==> IsList(doc, "outbounds")
      invariant s >= 2 ==> IsList(doc, "endpoints")
      invariant forall k :: k in doc ==>
                  shallow[k] == if (s >= 1 && k == "outbounds") || (s >= 2 && k == "endpoints")
                                then Cleaned(doc, valid)[k] else doc[k]
      invariant dropped > 0 <==> || (s >= 1 && Broken(doc, valid, "outbounds"))
                                 || (s >= 2 && Broken(doc, valid, "endpoints"))
      invariant dropped >= 0
    {
      var section := SECTIONS[s];
      if section in shallow {
        if !shallow[section].Entries? {
          return None;
        }
        assert shallow[section] == doc[section];
        var v, n := SalvageSection(doc, section, valid);
        dropped := dropped + n;
        shallow := shallow[section := v];
      }
      s := s + 1;
    }
    assert shallow == Cleaned(doc, valid);
    if dropped == 0 {
      return None;
    }
    r := decode(shallow);
    if r.Some? && r.value.outbounds == [] && r.value.endpoints == [] {
      return None;
    }
  }
}
