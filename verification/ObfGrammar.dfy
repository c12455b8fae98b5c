/**
 The checks of AmneziaWG's obfuscation parameters (xray2sing/ray2sing/awg.go), proved to
 accept exactly the strings of grammars that are written down on their own here.
 */
module ObfGrammar {
  import opened Common
  import opened GoStrings
  import opened Urls

  // ---- The grammars ----

  predicate IsUint32(s: string) { s != "" && AllDigits(s) && DecimalValue(s) < 0x1_0000_0000 }

  /** Nothing, one number, or a range that does not run backwards. */
  ghost predicate InMagicGrammar(s: string) {
    || s == ""
    || IsUint32(s)
    || exists a, b :: IsRange(s, a, b)
  }

  predicate IsRange(s: string, a: string, b: string) {
    s == a + "-" + b && IsUint32(a) && IsUint32(b) && DecimalValue(a) <= DecimalValue(b)
  }

  predicate Word(s: string) { s != "" && forall i :: 0 <= i < |s| ==> !IsSpace(s[i]) }

  /** The inside of a tag: a key, then perhaps a value, then perhaps more words. */
  datatype Tag = Tag(before: string, key: string, gap: string, value: string, after: string)

  function TagText(t: Tag): string { t.before + t.key + t.gap + t.value + t.after }

  predicate WellFormedTag(t: Tag) {
    && Blank(t.before) && Word(t.key) && Blank(t.gap)
    && if t.value == "" then t.after == ""
       else t.gap != "" && Word(t.value) && (t.after == "" || IsSpace(t.after[0]))
  }

  predicate HexDigits(s: string) { s != "" && |s| % 2 == 0 && forall i :: 0 <= i < |s| ==> HexValue(s[i]).Some? }

  predicate IsHexBytes(v: string) { HexDigits(v) || (HasPrefix(v, "0x") && HexDigits(v[2..])) }

  /** A non-negative int64 in decimal. A sign is allowed, a minus only before zero. */
  predicate IsLength(v: string) {
    var digits := if v != "" && (v[0] == '+' || v[0] == '-') then v[1..] else v;
    && digits != "" && AllDigits(digits) && DecimalValue(digits) < INT64_LIMIT
    && (v[0] == '-' ==> DecimalValue(digits) == 0)
  }

  predicate LegalTag(key: string, value: string) {
    || (key == "b" && IsHexBytes(value))
    || key == "t" || key == "d" || key == "ds"
    || ((key == "r" || key == "rc" || key == "rd" || key == "dz") && IsLength(value))
  }

  ghost predicate InTagGrammar(body: string) {
    exists t: Tag :: WellFormedTag(t) && TagText(t) == body && LegalTag(t.key, t.value)
  }

  /** Free text, then a tag. */
  datatype Item = Item(text: string, body: string)

  ghost predicate LegalItem(i: Item) { '<' !in i.text && '>' !in i.body && InTagGrammar(i.body) }

  function Render(items: seq<Item>, tail: string): string {
    if items == [] then tail
    else items[0].text + "<" + items[0].body + ">" + Render(items[1..], tail)
  }

  ghost predicate Spells(s: string, items: seq<Item>, tail: string) {
    s == Render(items, tail) && '<' !in tail && forall k :: 0 <= k < |items| ==> LegalItem(items[k])
  }

  ghost predicate InObfGrammar(s: string) { exists items, tail :: Spells(s, items, tail) }

  // ---- The checks ----

  /** validateMagicHeader */
  predicate MagicHeaderOk(spec: string) {
    spec == "" ||
    var parts := Split(spec, '-');
    && |parts| <= 2
    && ParseUint(parts[0], 0x1_0000_0000).Some?
    && (|parts| == 2 ==>
          && ParseUint(parts[1], 0x1_0000_0000).Some?
          && ParseUint(parts[0], 0x1_0000_0000).value <= ParseUint(parts[1], 0x1_0000_0000).value)
  }

  function WordLength(s: string): (n: nat)
    ensures n <= |s| && (forall i :: 0 <= i < n ==> !IsSpace(s[i])) && (n < |s| ==> IsSpace(s[n]))
  {
    if s == "" || IsSpace(s[0]) then 0 else 1 + WordLength(s[1..])
  }

  /** strings.Fields */
  function Fields(s: string): seq<string>
    decreases |s|
  {
    TrimLeftTrims(s);
    var t := TrimLeft(s);
    if t == "" then [] else [t[..WordLength(t)]] + Fields(t[WordLength(t)..])
  }

  predicate TagValueOk(key: string, val: string) {
    if key == "b" then HexDigits(TrimPrefix(val, "0x"))
    else if key == "t" || key == "d" || key == "ds" then true
    else if key == "r" || key == "rc" || key == "rd" || key == "dz" then Atoi(val).ok && Atoi(val).value >= 0
    else false
  }

  predicate TagOk(body: string) {
    var parts := Fields(body);
    parts != [] && TagValueOk(parts[0], if |parts| > 1 then parts[1] else "")
  }

  /** Where the first tag starts and ends; no tag when there is no '<', and an unclosed one when
      `end` is the length. */
  function TagStart(s: string): (start: nat) ensures start <= |s| { IndexByte(s, '<') }

  function TagEnd(s: string): (end: nat)
    ensures TagStart(s) <= end <= |s| && (end < |s| ==> TagStart(s) < end)
  {
    TagStart(s) + IndexByte(s[TagStart(s)..], '>')
  }

  predicate ObfSpecOk(s: string)
    decreases |s|
  {
    || TagStart(s) == |s|
    || (TagEnd(s) < |s| && TagOk(s[TagStart(s) + 1..TagEnd(s)]) && ObfSpecOk(s[TagEnd(s) + 1..]))
  }

  /** validateObfSpec: the scan over what remains of the spec. */
  method ValidateObfSpec(spec: string) returns (ok: bool)
    ensures ok <==> ObfSpecOk(spec)
    ensures ok <==> InObfGrammar(spec)
  {
    ok := ScanTags(spec);
    ObfSpecAcceptsItsGrammar(spec);
  }

  lemma ScanStep(s: string)
    requires TagEnd(s) < |s|
    ensures ObfSpecOk(s) <==> TagOk(s[TagStart(s) + 1..TagEnd(s)]) && ObfSpecOk(s[TagEnd(s) + 1..])
  {
  }

  lemma ScanEnd(s: string)
    requires TagEnd(s) == |s|
    ensures ObfSpecOk(s) <==> TagStart(s) == |s|
  {
  }

  method ScanTags(spec: string) returns (ok: bool)
    ensures ok <==> ObfSpecOk(spec)
  {
    var remaining := spec;
    while TagEnd(remaining) < |remaining|
      invariant ObfSpecOk(spec) == ObfSpecOk(remaining)
      decreases |remaining|
    {
      ScanStep(remaining);
      var body, rest := remaining[TagStart(remaining) + 1..TagEnd(remaining)], remaining[TagEnd(remaining) + 1..];
      if !TagOk(body) {
        return false;
      }
      remaining := rest;
    }
    ScanEnd(remaining);
    ok := TagStart(remaining) == |remaining|;
  }

  // ---- Magic headers ----

  /** validateMagicHeader accepts exactly the decimal uint32s and the ranges that do not run
      backwards. */
  lemma MagicHeaderAcceptsItsGrammar(spec: string)
    ensures MagicHeaderOk(spec) <==> InMagicGrammar(spec)
  {
    if spec != "" {
      var i := IndexByte(spec, '-');
      var parts := Split(spec, '-');
      if i < |spec| && MagicHeaderOk(spec) {
        SplitTail(spec);
        assert IsRange(spec, parts[0], parts[1]);
      }
      if exists a, b :: IsRange(spec, a, b) {
        var a, b :| IsRange(spec, a, b);
        SplitRange(a, b);
      }
      if IsUint32(spec) {
        assert '-' !in spec;
      }
    }
  }

  lemma SplitTail(spec: string)
    requires '-' in spec && |Split(spec, '-')| <= 2
    ensures |Split(spec, '-')| == 2 && spec == Split(spec, '-')[0] + "-" + Split(spec, '-')[1]
  {
    var i := IndexByte(spec, '-');
    assert Split(spec, '-')[1..] == Split(spec[i + 1..], '-');
    assert spec == spec[..i] + "-" + spec[i + 1..];
  }

  lemma SplitRange(a: string, b: string)
    requires IsUint32(a) && IsUint32(b)
    ensures Split(a + "-" + b, '-') == [a, b]
  {
    assert '-' !in a && '-' !in b;
    IndexByteAt(a, '-', b);
  }

  // ---- Tags ----

  lemma TagValueOkIsLegal(key: string, val: string)
    ensures TagValueOk(key, val) <==> LegalTag(key, val)
  {
    HexBytesAgree(val);
    LengthsAgree(val);
  }

  lemma HexBytesAgree(val: string)
    ensures HexDigits(TrimPrefix(val, "0x")) <==> IsHexBytes(val)
  {
    if HasPrefix(val, "0x") {
      assert val[1] == val[..2][1] == 'x';
      assert HexValue(val[1]).None?;
    }
  }

  lemma LengthsAgree(val: string)
    ensures (Atoi(val).ok && Atoi(val).value >= 0) <==> IsLength(val)
  {
  }

  lemma WordLengthIs(s: string, n: nat)
    requires n <= |s| && (forall i :: 0 <= i < n ==> !IsSpace(s[i])) && (n < |s| ==> IsSpace(s[n]))
    ensures WordLength(s) == n
  {
  }

  /** The first word of a text, and the text after it. */
  lemma FirstField(pre: string, word: string, rest: string)
    requires Blank(pre) && Word(word) && (rest == "" || IsSpace(rest[0]))
    ensures Fields(pre + word + rest) == [word] + Fields(rest)
  {
    var s := pre + word + rest;
    assert s == pre + (word + rest);
    TrimLeftOfBlank(pre, word + rest);
    WordLengthIs(word + rest, |word|);
    assert (word + rest)[..|word|] == word && (word + rest)[|word|..] == rest;
  }

  lemma NoFields(s: string)
    requires Blank(s)
    ensures Fields(s) == []
  {
    TrimLeftOfBlank(s, "");
    assert s + "" == s;
  }

  lemma FieldsOfTag(t: Tag)
    requires WellFormedTag(t)
    ensures var parts := Fields(TagText(t));
            |parts| >= 1 && parts[0] == t.key && t.value == if |parts| > 1 then parts[1] else ""
  {
    assert TagText(t) == t.before + t.key + (t.gap + t.value + t.after);
    FirstField(t.before, t.key, t.gap + t.value + t.after);
    if t.value == "" {
      assert t.gap + t.value + t.after == t.gap;
      NoFields(t.gap);
    } else {
      FirstField(t.gap, t.value, t.after);
    }
  }

  /** A text with a word in it: the blanks before the word, the word, the rest. */
  lemma Cut(s: string) returns (pre: string, word: string, rest: string)
    requires Fields(s) != []
    ensures s == pre + word + rest && Blank(pre) && Word(word) && (rest == "" || IsSpace(rest[0]))
    ensures Fields(s) == [word] + Fields(rest)
  {
    TrimLeftTrims(s);
    var t := TrimLeft(s);
    var n := WordLength(t);
    TrimmedPartIsBlank(s);
    pre, word, rest := s[..|s| - |t|], t[..n], t[n..];
    assert t == word + rest;
  }

  lemma {:induction false} NoFieldsIsBlank(s: string)
    requires Fields(s) == []
    ensures Blank(s)
  {
    TrimLeftTrims(s);
    TrimmedPartIsBlank(s);
  }

  lemma TagOf(body: string) returns (t: Tag)
    requires Fields(body) != []
    ensures WellFormedTag(t) && TagText(t) == body
  {
    var pre, key, rest := Cut(body);
    if Fields(rest) == [] {
      NoFieldsIsBlank(rest);
      t := Tag(pre, key, rest, "", "");
    } else {
      var gap, value, after := Cut(rest);
      t := Tag(pre, key, gap, value, after);
      assert rest[0] == (gap + value)[0];
      assert TagText(t) == pre + key + rest;
    }
  }

  lemma TagOkIsTagGrammar(body: string)
    ensures TagOk(body) <==> InTagGrammar(body)
  {
    if Fields(body) != [] {
      var t := TagOf(body);
      FieldsOfTag(t);
      TagValueOkIsLegal(t.key, t.value);
    }
    if InTagGrammar(body) {
      var t: Tag :| WellFormedTag(t) && TagText(t) == body && LegalTag(t.key, t.value);
      FieldsOfTag(t);
      TagValueOkIsLegal(t.key, t.value);
    }
  }

  // ---- Specs ----

  lemma TagCut(text: string, body: string, rest: string)
    requires '<' !in text && '>' !in body
    ensures var s := text + "<" + body + ">" + rest;
            && TagStart(s) == |text| && TagEnd(s) == |text| + 1 + |body| < |s|
            && s[TagStart(s) + 1..TagEnd(s)] == body && s[TagEnd(s) + 1..] == rest
  {
    var s := text + "<" + body + ">" + rest;
    RegroupTag(text, body, rest);
    IndexByteAt(text, '<', body + ">" + rest);
    ClosingAt(body, rest);
    TagCutTail(s, text, "<" + body + ">" + rest, body, rest);
  }

  lemma RegroupTag(text: string, body: string, rest: string)
    ensures text + "<" + body + ">" + rest == text + ['<'] + (body + ">" + rest)
    ensures text + "<" + body + ">" + rest == text + ("<" + body + ">" + rest)
  {
  }

  lemma TagCutTail(s: string, text: string, tag: string, body: string, rest: string)
    requires s == text + tag && |tag| == |body| + 2 + |rest| && TagStart(s) == |text|
    requires IndexByte(tag, '>') == 1 + |body| && tag[1..1 + |body|] == body && tag[|body| + 2..] == rest
    ensures TagEnd(s) == |text| + 1 + |body| < |s|
    ensures s[TagStart(s) + 1..TagEnd(s)] == body && s[TagEnd(s) + 1..] == rest
  {
    assert s[|text|..] == tag;
    SlicesOfTail(text, tag, 1, 1 + |body|);
    SlicesOfTail(text, tag, |body| + 2, |tag|);
  }

  lemma SlicesOfTail(text: string, tail: string, i: nat, j: nat)
    requires i <= j <= |tail|
    ensures (text + tail)[|text| + i..|text| + j] == tail[i..j]
  {
  }

  lemma ClosingAt(body: string, rest: string)
    requires '>' !in body
    ensures var tag := "<" + body + ">" + rest;
            IndexByte(tag, '>') == 1 + |body| && tag[1..1 + |body|] == body && tag[|body| + 2..] == rest
  {
    assert "<" + body + ">" + rest == ("<" + body) + ['>'] + rest;
    IndexByteAt("<" + body, '>', rest);
  }

  lemma TagCutBack(s: string) returns (text: string, body: string, rest: string)
    requires TagStart(s) < TagEnd(s) < |s|
    ensures s == text + "<" + body + ">" + rest && '<' !in text && '>' !in body
    ensures body == s[TagStart(s) + 1..TagEnd(s)] && rest == s[TagEnd(s) + 1..]
  {
    text, body, rest := s[..TagStart(s)], s[TagStart(s) + 1..TagEnd(s)], s[TagEnd(s) + 1..];
    assert forall k :: 0 <= k < |body| ==> body[k] == s[TagStart(s)..][k + 1];
  }

  /** A text is spelt with a first tag exactly when it is cut into one. */
  lemma SpellingStarts(s: string, items: seq<Item>, tail: string)
    requires Spells(s, items, tail)
    ensures items == [] <==> '<' !in s
    ensures items != [] ==>
              && TagStart(s) < TagEnd(s) < |s| && items[0].body == s[TagStart(s) + 1..TagEnd(s)]
              && Spells(s[TagEnd(s) + 1..], items[1..], tail) && InTagGrammar(items[0].body)
  {
    if items != [] {
      assert LegalItem(items[0]);
      TagCut(items[0].text, items[0].body, Render(items[1..], tail));
    }
  }

  lemma {:induction false} OkIsInGrammar(s: string)
    requires ObfSpecOk(s)
    ensures InObfGrammar(s)
    decreases |s|
  {
    if TagStart(s) == |s| {
      assert Spells(s, [], s);
    } else {
      var text, body, rest := TagCutBack(s);
      OkIsInGrammar(rest);
      TagOkIsTagGrammar(body);
      var items, tail :| Spells(rest, items, tail);
      AddItem(Item(text, body), rest, items, tail);
    }
  }

  lemma AddItem(first: Item, rest: string, items: seq<Item>, tail: string)
    requires LegalItem(first) && Spells(rest, items, tail)
    ensures Spells(first.text + "<" + first.body + ">" + rest, [first] + items, tail)
  {
  }

  lemma {:induction false} SpeltIsOk(s: string, items: seq<Item>, tail: string)
    requires Spells(s, items, tail)
    ensures ObfSpecOk(s)
    decreases |items|
  {
    SpellingStarts(s, items, tail);
    if items != [] {
      SpeltIsOk(s[TagEnd(s) + 1..], items[1..], tail);
      TagOkIsTagGrammar(items[0].body);
    }
  }

  /** validateObfSpec accepts exactly the texts in which every "<...>" is a legal tag. */
  lemma ObfSpecAcceptsItsGrammar(s: string)
    ensures ObfSpecOk(s) <==> InObfGrammar(s)
  {
    if ObfSpecOk(s) {
      OkIsInGrammar(s);
    }
    if InObfGrammar(s) {
      var items, tail :| Spells(s, items, tail);
      SpeltIsOk(s, items, tail);
    }
  }
}
