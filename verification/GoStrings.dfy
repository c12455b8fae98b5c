/**
 The parts of Go's strings and strconv packages that the parsers and printers use.

 A Go string is a sequence of bytes: here a `string` whose characters are below 256.
 Case mapping and white space are the ASCII ones.
 */
module GoStrings {
  import opened Common

  predicate IsBytes(s: string) { forall i :: 0 <= i < |s| ==> s[i] as int < 256 }

  // ---- Case and white space ----

  function LowerChar(c: char): char {
    if 'A' <= c <= 'Z' then (c as int + 32) as char else c
  }

  function Lower(s: string): (r: string)
    ensures |r| == |s|
  {
    seq(|s|, i requires 0 <= i < |s| => LowerChar(s[i]))
  }

  predicate IsSpace(c: char) { c == ' ' || '\t' <= c <= '\r' }

  function TrimLeft(s: string): string {
    if s != "" && IsSpace(s[0]) then TrimLeft(s[1..]) else s
  }

  function TrimRight(s: string): string {
    if s != "" && IsSpace(s[|s| - 1]) then TrimRight(s[..|s| - 1]) else s
  }

  function TrimSpace(s: string): string { TrimRight(TrimLeft(s)) }

  /** White space inside or nowhere: neither end is white space. */
  predicate Trimmed(s: string) { s == "" || (!IsSpace(s[0]) && !IsSpace(s[|s| - 1])) }

  lemma TrimSpaceOfTrimmed(s: string)
    requires Trimmed(s)
    ensures TrimSpace(s) == s
  {
  }

  lemma {:induction false} TrimLeftTrims(s: string)
    ensures TrimLeft(s) == "" || !IsSpace(TrimLeft(s)[0])
    ensures |TrimLeft(s)| <= |s| && TrimLeft(s) == s[|s| - |TrimLeft(s)|..]
  {
    if s != "" && IsSpace(s[0]) {
      TrimLeftTrims(s[1..]);
    }
  }

  predicate Blank(s: string) { forall i :: 0 <= i < |s| ==> IsSpace(s[i]) }

  lemma {:induction false} TrimLeftOfBlank(pre: string, rest: string)
    requires Blank(pre) && (rest == "" || !IsSpace(rest[0]))
    ensures TrimLeft(pre + rest) == rest
  {
    if pre == "" {
      assert pre + rest == rest;
    } else {
      TrimLeftOfBlank(pre[1..], rest);
      assert (pre + rest)[1..] == pre[1..] + rest;
    }
  }

  lemma {:induction false} TrimRightOfBlank(front: string, blank: string)
    requires Blank(blank) && (front == "" || !IsSpace(front[|front| - 1]))
    ensures TrimRight(front + blank) == front
  {
    if blank == "" {
      assert front + blank == front;
    } else {
      var n := |blank| - 1;
      TrimRightOfBlank(front, blank[..n]);
      assert (front + blank)[..|front| + n] == front + blank[..n];
    }
  }

  lemma {:induction false} TrimmedPartIsBlank(s: string)
    ensures |TrimLeft(s)| <= |s| && Blank(s[..|s| - |TrimLeft(s)|])
  {
    if s != "" && IsSpace(s[0]) {
      TrimmedPartIsBlank(s[1..]);
      TrimLeftTrims(s[1..]);
      var n := |s| - |TrimLeft(s)|;
      assert s[..n] == [s[0]] + s[1..][..n - 1];
    }
  }

  lemma {:induction false} TrimmedEndIsBlank(s: string)
    ensures |TrimRight(s)| <= |s| && TrimRight(s) == s[..|TrimRight(s)|] && Blank(s[|TrimRight(s)|..])
  {
    if s != "" && IsSpace(s[|s| - 1]) {
      var n := |s| - 1;
      TrimmedEndIsBlank(s[..n]);
      var k := |TrimRight(s)|;
      assert s[k..] == s[..n][k..] + [s[n]];
    }
  }

  /** White space, the trimmed text, white space. */
  lemma TrimSpaceCuts(s: string) returns (pre: string, post: string)
    ensures Blank(pre) && Blank(post) && s == pre + TrimSpace(s) + post
  {
    TrimLeftTrims(s);
    TrimmedPartIsBlank(s);
    var t := TrimLeft(s);
    TrimmedEndIsBlank(t);
    pre, post := s[..|s| - |t|], t[|TrimRight(t)|..];
    assert s == pre + t && t == TrimRight(t) + post;
  }

  lemma TrimSpaceAround(pre: string, t: string, post: string)
    requires Blank(pre) && Blank(post) && Trimmed(t)
    ensures TrimSpace(pre + t + post) == t
  {
    if t == "" {
      assert pre + t + post == pre + post + "";
      TrimLeftOfBlank(pre + post, "");
    } else {
      assert pre + t + post == pre + (t + post) && (t + post)[0] == t[0];
      TrimLeftOfBlank(pre, t + post);
      TrimRightOfBlank(t, post);
    }
  }

  // ---- Searching, cutting, splitting at a byte ----

  /** The first position of `c`, or the length when there is none. */
  function IndexByte(s: string, c: char): (i: nat)
    ensures i <= |s| && (i < |s| ==> s[i] == c)
    ensures forall j :: 0 <= j < i ==> s[j] != c
    ensures i < |s| <==> c in s
  {
    if s == "" then 0 else if s[0] == c then 0 else 1 + IndexByte(s[1..], c)
  }

  /** The last position of `c`, or -1. */
  function LastIndexByte(s: string, c: char): (i: int)
    ensures -1 <= i < |s| && (i >= 0 ==> s[i] == c)
    ensures forall j :: i < j < |s| ==> s[j] != c
    ensures i >= 0 <==> c in s
  {
    if s == "" then -1
    else if s[|s| - 1] == c then |s| - 1
    else LastIndexByte(s[..|s| - 1], c)
  }

  lemma IndexByteAt(a: string, c: char, b: string)
    requires c !in a
    ensures IndexByte(a + [c] + b, c) == |a|
    ensures (a + [c] + b)[..|a|] == a && (a + [c] + b)[|a| + 1..] == b
  {
    var s := a + [c] + b;
    assert s[|a|] == c;
    assert forall j :: 0 <= j < |a| ==> s[j] == a[j];
    assert c in s;
  }

  lemma {:induction false} LastIndexByteAt(a: string, c: char, b: string)
    requires c !in b
    ensures LastIndexByte(a + [c] + b, c) == |a|
    ensures (a + [c] + b)[..|a|] == a && (a + [c] + b)[|a| + 1..] == b
    decreases |b|
  {
    var s := a + [c] + b;
    if b == "" {
      assert s[|s| - 1] == c;
    } else {
      var n := |b| - 1;
      assert b[n] in b && s[|s| - 1] == b[n];
      assert s[..|s| - 1] == a + [c] + b[..n];
      LastIndexByteAt(a, c, b[..n]);
    }
  }

  /** The first position of a text in another, or the length when there is none. */
  function Index(s: string, sub: string): (i: nat)
    ensures i <= |s| && (i < |s| ==> HasPrefix(s[i..], sub))
    ensures forall j :: 0 <= j < i ==> !HasPrefix(s[j..], sub)
  {
    if s == "" || HasPrefix(s, sub) then 0
    else
      var i := 1 + Index(s[1..], sub);
      assert forall j :: 1 <= j < |s| ==> s[j..] == s[1..][j - 1..];
      i
  }

  lemma IndexAt(a: string, sub: string, b: string)
    requires sub != "" && sub[0] !in a
    ensures Index(a + sub + b, sub) == |a|
    ensures (a + sub + b)[..|a|] == a && (a + sub + b)[|a| + |sub|..] == b
  {
    var s := a + sub + b;
    assert s[|a|..] == sub + b;
    assert HasPrefix(s[|a|..], sub);
    forall j | 0 <= j < |a|
      ensures !HasPrefix(s[j..], sub)
    {
      assert s[j..][0] == a[j];
    }
  }

  predicate HasPrefix(s: string, p: string) { |p| <= |s| && s[..|p|] == p }

  lemma PrefixStarts(s: string, p: string)
    requires p != ""
    ensures HasPrefix(s, p) ==> s != "" && s[0] == p[0]
  {
    assert HasPrefix(s, p) ==> s[0] == s[..|p|][0];
  }

  predicate HasSuffix(s: string, p: string) { |p| <= |s| && s[|s| - |p|..] == p }

  function TrimPrefix(s: string, p: string): string { if HasPrefix(s, p) then s[|p|..] else s }

  function Split(s: string, c: char): (r: seq<string>)
    ensures |r| >= 1
    ensures forall i :: 0 <= i < |r| ==> c !in r[i]
    decreases |s|
  {
    var i := IndexByte(s, c);
    if i == |s| then [s] else [s[..i]] + Split(s[i + 1..], c)
  }

  /** strings.Split at a text rather than a byte. */
  function SplitOn(s: string, sep: string): (r: seq<string>)
    requires sep != ""
    ensures |r| >= 1
    decreases |s|
  {
    var i := Index(s, sep);
    if i == |s| then [s] else [s[..i]] + SplitOn(s[i + |sep|..], sep)
  }

  function Join(parts: seq<string>, c: char): string {
    if parts == [] then ""
    else if |parts| == 1 then parts[0]
    else parts[0] + [c] + Join(parts[1..], c)
  }

  /** strings.Join with nothing in between. */
  function Concat(parts: seq<string>): string { if parts == [] then "" else parts[0] + Concat(parts[1..]) }

  lemma SplitAt(a: string, c: char, b: string)
    requires c !in a
    ensures Split(a, c) == [a] && Split(a + [c] + b, c) == [a] + Split(b, c)
  {
    IndexByteAt(a, c, b);
    assert a[..|a|] == a;
  }

  lemma Regroup(a: string, b: string, c: string, d: string)
    ensures (a + b + c) + d == a + b + (c + d) && a + (b + c + d) == (a + b) + c + d
  {
  }

  /** A text cut at the first place where a byte stands. */
  lemma CutAtFirst(s: string, c: char) returns (first: string, rest: string)
    requires c in s
    ensures s == first + [c] + rest && c !in first
  {
    var i := IndexByte(s, c);
    first, rest := s[..i], s[i + 1..];
  }

  lemma {:induction false} SplitConcat(a: string, c: char, b: string)
    ensures Split(a + [c] + b, c) == Split(a, c) + Split(b, c)
    decreases |a|
  {
    if c !in a {
      SplitAt(a, c, b);
    } else {
      var first, rest := CutAtFirst(a, c);
      SplitConcat(rest, c, b);
      SplitConcatStep(first, rest, c, b);
    }
  }

  lemma SplitConcatStep(first: string, rest: string, c: char, b: string)
    requires c !in first && Split(rest + [c] + b, c) == Split(rest, c) + Split(b, c)
    ensures Split(first + [c] + rest + [c] + b, c) == Split(first + [c] + rest, c) + Split(b, c)
  {
    Regroup(first, [c], rest, [c] + b);
    calc {
      Split(first + [c] + rest + [c] + b, c);
      { assert first + [c] + rest + [c] + b == first + [c] + (rest + [c] + b); }
      Split(first + [c] + (rest + [c] + b), c);
      { SplitAt(first, c, rest + [c] + b); }
      [first] + Split(rest + [c] + b, c);
      [first] + (Split(rest, c) + Split(b, c));
      ([first] + Split(rest, c)) + Split(b, c);
      { SplitAt(first, c, rest); }
      Split(first + [c] + rest, c) + Split(b, c);
    }
  }

  predicate Free(parts: seq<string>, c: char) { forall i :: 0 <= i < |parts| ==> c !in parts[i] }

  lemma JoinStep(part: string, parts: seq<string>, c: char)
    requires parts != []
    ensures Join([part] + parts, c) == part + [c] + Join(parts, c)
  {
    assert ([part] + parts)[1..] == parts;
  }

  lemma {:induction false} SplitJoin(parts: seq<string>, c: char)
    requires parts != [] && Free(parts, c)
    ensures Split(Join(parts, c), c) == parts
    decreases |parts|
  {
    var first, rest := parts[0], parts[1..];
    if rest == [] {
      SplitAt(first, c, "");
    } else {
      SplitJoin(rest, c);
      SplitAt(first, c, Join(rest, c));
    }
  }

  lemma {:induction false} JoinSplit(s: string, c: char)
    ensures Join(Split(s, c), c) == s
    decreases |s|
  {
    if c !in s {
      SplitAt(s, c, "");
    } else {
      var first, rest := CutAtFirst(s, c);
      JoinSplit(rest, c);
      JoinSplitStep(first, rest, c);
    }
  }

  lemma JoinSplitStep(first: string, rest: string, c: char)
    requires c !in first && Join(Split(rest, c), c) == rest
    ensures Join(Split(first + [c] + rest, c), c) == first + [c] + rest
  {
    SplitAt(first, c, rest);
    JoinStep(first, Split(rest, c), c);
  }

  // ---- Decimals ----

  predicate IsDigit(c: char) { '0' <= c <= '9' }

  predicate AllDigits(s: string) { forall i :: 0 <= i < |s| ==> IsDigit(s[i]) }

  function DigitChar(d: nat): (c: char)
    requires d < 10
    ensures IsDigit(c)
  {
    ('0' as int + d) as char
  }

  function DigitValue(c: char): (d: nat)
    requires IsDigit(c)
    ensures d < 10
  {
    c as int - '0' as int
  }

  function Itoa(n: nat): (s: string)
    ensures s != "" && AllDigits(s)
  {
    if n < 10 then [DigitChar(n)] else Itoa(n / 10) + [DigitChar(n % 10)]
  }

  function ItoaInt(n: int): string { if n < 0 then "-" + Itoa(-n) else Itoa(n) }

  function DecimalValue(s: string): nat
    requires AllDigits(s)
  {
    if s == "" then 0 else 10 * DecimalValue(s[..|s| - 1]) + DigitValue(s[|s| - 1])
  }

  lemma {:induction false} ItoaValue(n: nat)
    ensures DecimalValue(Itoa(n)) == n
  {
    if n < 10 {
      assert [DigitChar(n)][..0] == "";
    } else {
      ItoaValue(n / 10);
      var s := Itoa(n);
      assert s[..|s| - 1] == Itoa(n / 10);
    }
  }

  /** strconv.ParseUint in base 10; `limit` is two to the power of the bit size. */
  function ParseUint(s: string, limit: nat): Option<nat> {
    if s != "" && AllDigits(s) && DecimalValue(s) < limit then Some(DecimalValue(s)) else None
  }

  const INT64_LIMIT: int := 0x8000_0000_0000_0000

  /** strconv.Atoi with the value it returns beside an error: 0 on a syntax error, the nearest
      int64 on overflow. */
  datatype Number = Number(value: int, ok: bool)

  function Atoi(s: string): Number {
    var negative := s != "" && s[0] == '-';
    var digits := if s != "" && (s[0] == '-' || s[0] == '+') then s[1..] else s;
    if digits == "" || !AllDigits(digits) then Number(0, false)
    else
      var n: int := DecimalValue(digits);
      if negative then (if n <= INT64_LIMIT then Number(-n, true) else Number(-INT64_LIMIT, false))
      else if n < INT64_LIMIT then Number(n, true) else Number(INT64_LIMIT - 1, false)
  }

  lemma NumbersReadBack(n: nat)
    ensures n < INT64_LIMIT ==> Atoi(Itoa(n)) == Number(n, true)
    ensures forall limit: nat :: n < limit ==> ParseUint(Itoa(n), limit) == Some(n)
  {
    ItoaValue(n);
    assert IsDigit(Itoa(n)[0]);
  }

  function OrDefault(v: string, def: string): string { if v != "" then v else def }
}
