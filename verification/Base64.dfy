/**
 Base64 as Go's encoding/base64 reads and writes it (sections 4 and 5 of RFC 4648), and the
 decoder for subscription text that tolerates the url-safe alphabet, missing padding, a byte
 order mark and white space.
 */
module Base64 {
  import opened Common
  import opened GoStrings

  datatype Alphabet = Std | Url

  type Digit = d: int | 0 <= d < 64 witness 0

  // ---- Digits ----

  function Symbol(d: Digit, a: Alphabet): char {
    if d < 26 then ('A' as int + d) as char
    else if d < 52 then ('a' as int + d - 26) as char
    else if d < 62 then ('0' as int + d - 52) as char
    else if d == 62 then (if a.Std? then '+' else '-')
    else (if a.Std? then '/' else '_')
  }

  function Value(c: char, a: Alphabet): Option<Digit> {
    if 'A' <= c <= 'Z' then Some(c as int - 'A' as int)
    else if 'a' <= c <= 'z' then Some(c as int - 'a' as int + 26)
    else if '0' <= c <= '9' then Some(c as int - '0' as int + 52)
    else if c == (if a.Std? then '+' else '-') then Some(62)
    else if c == (if a.Std? then '/' else '_') then Some(63)
    else None
  }

  lemma SymbolValue(d: Digit, a: Alphabet)
    ensures Value(Symbol(d, a), a) == Some(d)
    ensures Symbol(d, a) as int < 128 && !IsSpace(Symbol(d, a)) && Symbol(d, a) != '=' && Symbol(d, a) != ':'
  {
  }

  // ---- Encoding: three bytes make four digits ----

  function Byte(c: char): int { c as int % 256 }

  /** One to three bytes as two to four digits, the missing bits zero. */
  function Quantum(b: string): (ds: seq<Digit>)
    requires 1 <= |b| <= 3
    ensures |ds| == |b| + 1
  {
    var b0 := Byte(b[0]);
    if |b| == 1 then [b0 / 4, b0 % 4 * 16]
    else
      var b1 := Byte(b[1]);
      if |b| == 2 then [b0 / 4, b0 % 4 * 16 + b1 / 16, b1 % 16 * 4]
      else [b0 / 4, b0 % 4 * 16 + b1 / 16, b1 % 16 * 4 + Byte(b[2]) / 64, Byte(b[2]) % 64]
  }

  function FirstByte(d0: int, d1: int): int { d0 * 4 + d1 / 16 }

  function SecondByte(d1: int, d2: int): int { d1 % 16 * 16 + d2 / 4 }

  function ThirdByte(d2: int, d3: int): int { d2 % 4 * 64 + d3 }

  /** The bytes of two to four digits; what is left over of the last one is ignored. */
  function Bytes(ds: seq<Digit>): (b: string)
    requires 2 <= |ds| <= 4
    ensures |b| == |ds| - 1 && IsBytes(b)
  {
    if |ds| == 2 then [FirstByte(ds[0], ds[1]) as char]
    else if |ds| == 3 then [FirstByte(ds[0], ds[1]) as char, SecondByte(ds[1], ds[2]) as char]
    else [FirstByte(ds[0], ds[1]) as char, SecondByte(ds[1], ds[2]) as char, ThirdByte(ds[2], ds[3]) as char]
  }

  lemma Regrouped(b0: int, b1: int, b2: int)
    requires 0 <= b0 < 256 && 0 <= b1 < 256 && 0 <= b2 < 256
    ensures FirstByte(b0 / 4, b0 % 4 * 16 + b1 / 16) == b0
    ensures SecondByte(b0 % 4 * 16 + b1 / 16, b1 % 16 * 4 + b2 / 64) == b1
    ensures ThirdByte(b1 % 16 * 4 + b2 / 64, b2 % 64) == b2
  {
  }

  lemma QuantumBytes(b: string)
    requires 1 <= |b| <= 3 && IsBytes(b)
    ensures Bytes(Quantum(b)) == b
  {
    if |b| == 1 {
      OneByte(b[0]);
      assert b == [b[0]];
    } else if |b| == 2 {
      TwoBytes(b[0], b[1]);
      assert b == [b[0], b[1]];
    } else {
      ThreeBytes(b[0], b[1], b[2]);
      assert b == [b[0], b[1], b[2]];
    }
  }

  lemma ByteIsChar(x: char)
    requires x as int < 256
    ensures Byte(x) == x as int && Byte(x) as char == x
  {
  }

  lemma OneByte(x: char)
    requires x as int < 256
    ensures Bytes(Quantum([x])) == [x]
  {
    ByteIsChar(x);
    var b0 := Byte(x);
    var ds := Quantum([x]);
    assert ds == [b0 / 4, b0 % 4 * 16];
    Regrouped(b0, 0, 0);
    assert FirstByte(ds[0], ds[1]) == b0;
  }

  lemma TwoBytes(x: char, y: char)
    requires x as int < 256 && y as int < 256
    ensures Bytes(Quantum([x, y])) == [x, y]
  {
    ByteIsChar(x);
    ByteIsChar(y);
    var b0, b1 := Byte(x), Byte(y);
    var ds := Quantum([x, y]);
    assert ds == [b0 / 4, b0 % 4 * 16 + b1 / 16, b1 % 16 * 4];
    Regrouped(b0, b1, 0);
    assert FirstByte(ds[0], ds[1]) == b0 && SecondByte(ds[1], ds[2]) == b1;
  }

  lemma ThreeBytes(x: char, y: char, z: char)
    requires x as int < 256 && y as int < 256 && z as int < 256
    ensures Bytes(Quantum([x, y, z])) == [x, y, z]
  {
    ByteIsChar(x);
    ByteIsChar(y);
    ByteIsChar(z);
    var b0, b1, b2 := Byte(x), Byte(y), Byte(z);
    var ds := Quantum([x, y, z]);
    assert ds == [b0 / 4, b0 % 4 * 16 + b1 / 16, b1 % 16 * 4 + b2 / 64, b2 % 64];
    Regrouped(b0, b1, b2);
    assert FirstByte(ds[0], ds[1]) == b0 && SecondByte(ds[1], ds[2]) == b1 && ThirdByte(ds[2], ds[3]) == b2;
  }

  function Symbols(ds: seq<Digit>, a: Alphabet): (s: string)
    ensures |s| == |ds|
  {
    seq(|ds|, i requires 0 <= i < |ds| => Symbol(ds[i], a))
  }

  /** EncodeToString of the four encodings: a standard or url-safe alphabet, padded or raw. */
  function Encode(b: string, a: Alphabet, padded: bool): string
    decreases |b|
  {
    if b == "" then ""
    else if |b| < 3 then
      Symbols(Quantum(b), a) + if padded then Padding(3 - |b|) else ""
    else Symbols(Quantum(b[..3]), a) + Encode(b[3..], a, padded)
  }

  function Padding(n: nat): (p: string)
    ensures |p| == n && forall i :: 0 <= i < n ==> p[i] == '='
  {
    seq(n, i => '=')
  }

  // ---- Decoding ----

  /** The decoder skips line breaks wherever they stand. */
  function DropBreaks(s: string): string {
    if s == "" then "" else (if s[0] == '\r' || s[0] == '\n' then "" else [s[0]]) + DropBreaks(s[1..])
  }

  function Values(s: string, a: Alphabet): Option<seq<Digit>> {
    if s == "" then Some([])
    else
      match (Value(s[0], a), Values(s[1..], a))
      case (Some(d), Some(ds)) => Some([d] + ds)
      case _ => None
  }

  /** DecodeString of a padded encoding, line breaks gone: groups of four symbols, the last of
      which may end in one or two padding characters. */
  function DecodeGroups(s: string, a: Alphabet): (r: Option<string>)
    ensures r.Some? ==> IsBytes(r.value)
    decreases |s|
  {
    if s == "" then Some("")
    else if |s| < 4 then None
    else if |s| == 4 && s[2..] == "==" then
      match Values(s[..2], a) case Some(ds) => GroupBytes(ds) case None => None
    else if |s| == 4 && s[3] == '=' then
      match Values(s[..3], a) case Some(ds) => GroupBytes(ds) case None => None
    else
      match (Values(s[..4], a), DecodeGroups(s[4..], a))
      case (Some(ds), Some(rest)) => (match GroupBytes(ds) case Some(b) => Some(b + rest) case None => None)
      case _ => None
  }

  function GroupBytes(ds: seq<Digit>): (r: Option<string>)
    ensures r.Some? ==> IsBytes(r.value)
  {
    if 2 <= |ds| <= 4 then Some(Bytes(ds)) else None
  }

  function DecodeString(s: string, a: Alphabet): Option<string> { DecodeGroups(DropBreaks(s), a) }

  lemma {:induction false} ValuesOfSymbols(ds: seq<Digit>, a: Alphabet)
    ensures Values(Symbols(ds, a), a) == Some(ds)
  {
    if ds != [] {
      SymbolValue(ds[0], a);
      ValuesOfSymbols(ds[1..], a);
      assert Symbols(ds, a)[1..] == Symbols(ds[1..], a);
      assert [ds[0]] + ds[1..] == ds;
    }
  }

  predicate CodeChar(c: char, a: Alphabet, padded: bool) { (Value(c, a).Some? && !IsSpace(c)) || (padded && c == '=') }

  lemma SymbolsAreCode(ds: seq<Digit>, a: Alphabet, padded: bool)
    ensures AllCode(Symbols(ds, a), a, padded)
  {
  }

  predicate AllCode(s: string, a: Alphabet, padded: bool) { forall c :: c in s ==> CodeChar(c, a, padded) }

  lemma AllCodeAppend(x: string, y: string, a: Alphabet, padded: bool)
    requires AllCode(x, a, padded) && AllCode(y, a, padded)
    ensures AllCode(x + y, a, padded)
  {
  }

  lemma {:induction false} CodeChars(b: string, a: Alphabet, padded: bool)
    ensures AllCode(Encode(b, a, padded), a, padded)
    decreases |b|
  {
    if |b| >= 3 {
      CodeChars(b[3..], a, padded);
      SymbolsAreCode(Quantum(b[..3]), a, padded);
      AllCodeAppend(Symbols(Quantum(b[..3]), a), Encode(b[3..], a, padded), a, padded);
    } else if b != "" {
      SymbolsAreCode(Quantum(b), a, padded);
      var pad := if padded then Padding(3 - |b|) else "";
      assert AllCode(pad, a, padded);
      AllCodeAppend(Symbols(Quantum(b), a), pad, a, padded);
    }
  }

  lemma EncodedChars(b: string, a: Alphabet, padded: bool)
    ensures forall c :: c in Encode(b, a, padded) ==> (Value(c, a).Some? && !IsSpace(c)) || (padded && c == '=')
  {
    CodeChars(b, a, padded);
    forall c | c in Encode(b, a, padded)
      ensures (Value(c, a).Some? && !IsSpace(c)) || (padded && c == '=')
    {
      assert CodeChar(c, a, padded);
    }
  }

  lemma FourMore(n: nat)
    ensures (4 + n) % 4 == n % 4
  {
  }

  lemma {:induction false} EncodedLength(b: string, a: Alphabet)
    ensures |Encode(b, a, true)| % 4 == 0
    decreases |b|
  {
    if |b| >= 3 {
      EncodedLength(b[3..], a);
      FourMore(|Encode(b[3..], a, true)|);
    }
  }

  /** What is accepted comes in groups of four. */
  lemma {:induction false} AcceptedLength(s: string, a: Alphabet)
    requires DecodeGroups(s, a).Some?
    ensures |s| % 4 == 0
    decreases |s|
  {
    if |s| > 4 {
      AcceptedLength(s[4..], a);
      FourMore(|s| - 4);
    }
  }

  lemma {:induction false} NoBreaksToDrop(s: string)
    requires '\r' !in s && '\n' !in s
    ensures DropBreaks(s) == s
  {
    if s != "" {
      NoBreaksToDrop(s[1..]);
    }
  }

  lemma DecodeShort(b: string, a: Alphabet)
    requires IsBytes(b) && 1 <= |b| <= 2
    ensures DecodeGroups(Encode(b, a, true), a) == Some(b)
  {
    var ds := Quantum(b);
    ValuesOfSymbols(ds, a);
    QuantumBytes(b);
    var s := Encode(b, a, true);
    assert s[..|b| + 1] == Symbols(ds, a);
    if |b| == 1 {
      assert s[2..] == "==";
    } else {
      SymbolValue(ds[2], a);
      assert s[2] == Symbol(ds[2], a) && s[3] == '=';
    }
  }

  /** A full group of symbols before more of them. */
  lemma DecodeGroup(b: string, rest: string, more: string, a: Alphabet)
    requires IsBytes(b) && |b| == 3 && DecodeGroups(rest, a) == Some(more)
    ensures DecodeGroups(Symbols(Quantum(b), a) + rest, a) == Some(b + more)
  {
    var ds := Quantum(b);
    var s := Symbols(ds, a) + rest;
    ValuesOfSymbols(ds, a);
    QuantumBytes(b);
    SymbolValue(ds[3], a);
    assert s[..4] == Symbols(ds, a) && s[4..] == rest;
    assert s[3] == Symbol(ds[3], a) && s[3] != '=';
    if |s| == 4 {
      assert s[2..][1] == s[3];
    }
  }

  lemma {:induction false} DecodeGroupsEncode(b: string, a: Alphabet)
    requires IsBytes(b)
    ensures DecodeGroups(Encode(b, a, true), a) == Some(b)
    decreases |b|
  {
    if 1 <= |b| <= 2 {
      DecodeShort(b, a);
    } else if b != "" {
      DecodeGroupsEncode(b[3..], a);
      DecodeGroup(b[..3], Encode(b[3..], a, true), b[3..], a);
      assert b[..3] + b[3..] == b;
    }
  }

  /** Decoding undoes encoding. */
  lemma DecodeEncode(b: string, a: Alphabet)
    requires IsBytes(b)
    ensures DecodeString(Encode(b, a, true), a) == Some(b)
  {
    EncodedChars(b, a, true);
    NoBreaksToDrop(Encode(b, a, true));
    DecodeGroupsEncode(b, a);
  }

  /** Nothing but the alphabet, padding and line breaks is ever accepted. */
  lemma {:induction false} AcceptedChars(s: string, a: Alphabet)
    requires DecodeGroups(s, a).Some?
    ensures forall c :: c in s ==> Value(c, a).Some? || c == '='
    decreases |s|
  {
    if |s| == 4 && s[2..] == "==" {
      ValuesChars(s[..2], a);
      assert s == s[..2] + "==";
    } else if |s| == 4 && s[3] == '=' {
      ValuesChars(s[..3], a);
      assert s == s[..3] + "=";
    } else if s != "" {
      ValuesChars(s[..4], a);
      AcceptedChars(s[4..], a);
      assert s == s[..4] + s[4..];
    }
  }

  lemma {:induction false} ValuesChars(s: string, a: Alphabet)
    requires Values(s, a).Some?
    ensures |Values(s, a).value| == |s| && forall i :: 0 <= i < |s| ==> Value(s[i], a) == Some(Values(s, a).value[i])
    ensures forall c :: c in s ==> Value(c, a).Some?
  {
    if s != "" {
      ValuesChars(s[1..], a);
      assert Values(s, a).value == [Value(s[0], a).value] + Values(s[1..], a).value;
    }
  }
}
