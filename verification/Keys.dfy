/**
 Base64 text as subscriptions carry it: wrapped, url-safe, unpadded. The tolerant decoder,
 and the normalisers that bring WireGuard, Shadowsocks 2022 and Reality keys to the one form
 the engine accepts.
 */
module Keys {
  import opened Common
  import opened GoStrings
  import opened Base64

  const BOM := "\U{EF}\U{BB}\U{BF}"

  predicate IsAsciiBlank(c: char) { c == ' ' || c == '\t' || c == '\r' || c == '\n' }

  function StripBlanks(s: string): string {
    if s == "" then "" else (if IsAsciiBlank(s[0]) then "" else [s[0]]) + StripBlanks(s[1..])
  }

  /** Padding up to a multiple of four. */
  function Repad(s: string): string {
    if |s| % 4 == 0 then s else s + Padding(4 - |s| % 4)
  }

  /** decodeBase64FaultTolerant; None stands for its error. */
  function DecodeFaultTolerant(raw: string): Option<string> {
    var text := Repad(StripBlanks(TrimSpace(TrimPrefix(raw, BOM))));
    var std := DecodeString(text, Std);
    if std.Some? then std else DecodeString(text, Url)
  }

  /** decodeBase64IfNeeded: the text itself when it is not base64. */
  function DecodeIfNeeded(s: string): string {
    match DecodeFaultTolerant(s) case Some(b) => b case None => s
  }

  function ToStdChar(c: char): char { if c == '-' then '+' else if c == '_' then '/' else c }

  function ToStd(s: string): (r: string)
    ensures |r| == |s|
  {
    seq(|s|, i requires 0 <= i < |s| => ToStdChar(s[i]))
  }

  function ToUrlChar(c: char): char { if c == '+' then '-' else if c == '/' then '_' else c }

  function ToUrl(s: string): (r: string)
    ensures |r| == |s|
  {
    seq(|s|, i requires 0 <= i < |s| => ToUrlChar(s[i]))
  }

  function TrimPadding(s: string): string {
    if s != "" && s[|s| - 1] == '=' then TrimPadding(s[..|s| - 1]) else s
  }

  const WG_KEY_BYTES := 32

  /** normalizeWgKey: "" stays "", anything else is 32 bytes in standard padded base64 or an error. */
  function NormalizeWgKey(val: string): Option<string> {
    var k := TrimSpace(val);
    if k == "" then Some("")
    else
      match DecodeString(Repad(TrimPadding(ToStd(k))), Std)
      case Some(raw) => if |raw| == WG_KEY_BYTES then Some(Encode(raw, Std, true)) else None
      case None => None
  }

  /** A segment that already decodes stays as it is. */
  function FixSegment(p: string): string {
    if DecodeString(p, Std).Some? then p else Repad(ToStd(p))
  }

  function FixSegments(ps: seq<string>): (r: seq<string>)
    ensures |r| == |ps|
  {
    seq(|ps|, i requires 0 <= i < |ps| => FixSegment(ps[i]))
  }

  method NormalizeSS2022Password(pass: string) returns (r: string)
    ensures r == Join(FixSegments(Split(pass, ':')), ':')
  {
    var parts := Split(pass, ':');
    ghost var was := parts;
    var i := 0;
    while i < |parts|
      invariant 0 <= i <= |parts| == |was|
      invariant forall j :: 0 <= j < |was| ==> parts[j] == if j < i then FixSegment(was[j]) else was[j]
    {
      var p := parts[i];
      if DecodeString(p, Std).None? {
        p := ToStd(p);
        if |p| % 4 != 0 {
          p := p + Padding(4 - |p| % 4);
        }
        parts := parts[i := p];
      }
      i := i + 1;
    }
    assert parts == FixSegments(was);
    r := Join(parts, ':');
  }

  function NormalizeRealityPublicKey(v: string): string { ToUrl(TrimPadding(TrimSpace(v))) }

  // ---- The four encodings of one byte string ----

  /** How much padding an encoding of `n` symbols takes. */
  function PaddingFor(n: nat): nat { if n % 4 == 0 then 0 else 4 - n % 4 }

  lemma {:induction false} FullIsRawAndPadding(b: string, a: Alphabet)
    ensures Encode(b, a, true) == Encode(b, a, false) + Padding(PaddingFor(|Encode(b, a, false)|))
    decreases |b|
  {
    if |b| >= 3 {
      FullIsRawAndPadding(b[3..], a);
      FourMore(|Encode(b[3..], a, false)|);
    } else if b != "" {
      ShortEncodings(b, a);
    }
  }

  lemma ShortEncodings(b: string, a: Alphabet)
    requires 1 <= |b| <= 2
    ensures Encode(b, a, true) == Encode(b, a, false) + Padding(PaddingFor(|Encode(b, a, false)|))
  {
  }

  lemma RawHasNoPadding(b: string, a: Alphabet)
    ensures '=' !in Encode(b, a, false)
  {
  }

  lemma RawPlusPadding(b: string, a: Alphabet)
    ensures Repad(Encode(b, a, false)) == Encode(b, a, true)
    ensures TrimPadding(Encode(b, a, true)) == Encode(b, a, false)
    ensures TrimPadding(Encode(b, a, false)) == Encode(b, a, false)
  {
    FullIsRawAndPadding(b, a);
    RawHasNoPadding(b, a);
    var raw := Encode(b, a, false);
    RepadIs(raw);
    NoPaddingToTrim(raw);
    TrimsPadding(raw, PaddingFor(|raw|));
  }

  lemma RepadIs(raw: string)
    ensures Repad(raw) == raw + Padding(PaddingFor(|raw|))
  {
  }

  lemma NoPaddingToTrim(s: string)
    requires '=' !in s
    ensures TrimPadding(s) == s
  {
  }

  lemma {:induction false} TrimsPadding(s: string, n: nat)
    requires '=' !in s
    ensures TrimPadding(s + Padding(n)) == s
  {
    if n == 0 {
      assert s + Padding(0) == s;
      NoPaddingToTrim(s);
    } else {
      TrimsPadding(s, n - 1);
      assert (s + Padding(n))[..|s| + n - 1] == s + Padding(n - 1);
    }
  }

  lemma {:induction false} EncodeInOther(b: string, padded: bool)
    ensures ToStd(Encode(b, Url, padded)) == Encode(b, Std, padded)
    ensures ToUrl(Encode(b, Std, padded)) == Encode(b, Url, padded)
    decreases |b|
  {
    if |b| >= 3 {
      EncodeInOther(b[3..], padded);
      SymbolsInOther(Quantum(b[..3]));
      var u, s := Symbols(Quantum(b[..3]), Url), Symbols(Quantum(b[..3]), Std);
      assert ToStd(u + Encode(b[3..], Url, padded)) == ToStd(u) + ToStd(Encode(b[3..], Url, padded));
      assert ToUrl(s + Encode(b[3..], Std, padded)) == ToUrl(s) + ToUrl(Encode(b[3..], Std, padded));
    } else if b != "" {
      SymbolsInOther(Quantum(b));
      var pad := if padded then Padding(3 - |b|) else "";
      assert ToStd(Symbols(Quantum(b), Url) + pad) == ToStd(Symbols(Quantum(b), Url)) + pad;
      assert ToUrl(Symbols(Quantum(b), Std) + pad) == ToUrl(Symbols(Quantum(b), Std)) + pad;
    }
  }

  lemma SymbolsInOther(ds: seq<Digit>)
    ensures ToStd(Symbols(ds, Url)) == Symbols(ds, Std) && ToUrl(Symbols(ds, Std)) == Symbols(ds, Url)
  {
  }

  /** A text with none of the url-safe symbols is its own standard spelling. */
  lemma ToStdOfPlain(s: string)
    requires '-' !in s && '_' !in s
    ensures ToStd(s) == s
  {
  }

  lemma ToStdOfStd(b: string, padded: bool)
    ensures ToStd(Encode(b, Std, padded)) == Encode(b, Std, padded)
    ensures ToUrl(Encode(b, Url, padded)) == Encode(b, Url, padded)
  {
    EncodedChars(b, Std, padded);
    EncodedChars(b, Url, padded);
    var s, u := Encode(b, Std, padded), Encode(b, Url, padded);
    assert '-' !in s && '_' !in s && '+' !in u && '/' !in u;
  }

  /** The standard decoder reads a url-safe text that it accepts at all as the same bytes. */
  lemma StdOfUrl(b: string)
    requires IsBytes(b)
    ensures var std := DecodeString(Encode(b, Url, true), Std); std == None || std == Some(b)
    ensures DecodeString(Encode(b, Url, true), Url) == Some(b)
  {
    var u := Encode(b, Url, true);
    DecodeEncode(b, Url);
    if DecodeString(u, Std).Some? {
      EncodedChars(b, Url, true);
      NoBreaksToDrop(u);
      AcceptedIsPlain(u);
      EncodeInOther(b, true);
      DecodeEncode(b, Std);
    }
  }

  /** What the standard decoder accepts holds no url-safe symbol. */
  lemma AcceptedIsPlain(s: string)
    requires DecodeGroups(s, Std).Some?
    ensures ToStd(s) == s
  {
    AcceptedChars(s, Std);
    assert Value('-', Std) == None && Value('_', Std) == None;
    ToStdOfPlain(s);
  }

  lemma RepadOfEncode(b: string, a: Alphabet, padded: bool)
    ensures Repad(Encode(b, a, padded)) == Encode(b, a, true)
  {
    if padded {
      EncodedLength(b, a);
    } else {
      RawPlusPadding(b, a);
    }
  }

  lemma {:induction false} StripKeeps(s: string, c: char)
    requires !IsAsciiBlank(c)
    ensures c in StripBlanks(s) <==> c in s
  {
    if s != "" {
      StripKeeps(s[1..], c);
      assert s == [s[0]] + s[1..];
    }
  }

  lemma {:induction false} StripsNothing(s: string)
    requires forall i :: 0 <= i < |s| ==> !IsAsciiBlank(s[i])
    ensures StripBlanks(s) == s
  {
    if s != "" {
      StripsNothing(s[1..]);
      assert s == [s[0]] + s[1..];
    }
  }

  lemma StripStep(c: char, rest: string)
    ensures StripBlanks([c]) == if IsAsciiBlank(c) then "" else [c]
    ensures StripBlanks([c] + rest) == StripBlanks([c]) + StripBlanks(rest)
  {
    assert ([c] + rest)[1..] == rest && [c][1..] == "";
  }

  lemma {:induction false} StripSplits(s: string, t: string)
    ensures StripBlanks(s + t) == StripBlanks(s) + StripBlanks(t)
  {
    if s == "" {
      assert s + t == t;
    } else {
      var c, rest := s[0], s[1..];
      calc {
        StripBlanks(s + t);
        { assert s + t == [c] + (rest + t); StripStep(c, rest + t); }
        StripBlanks([c]) + StripBlanks(rest + t);
        { StripSplits(rest, t); }
        StripBlanks([c]) + (StripBlanks(rest) + StripBlanks(t));
        (StripBlanks([c]) + StripBlanks(rest)) + StripBlanks(t);
        { assert s == [c] + rest; StripStep(c, rest); }
        StripBlanks(s) + StripBlanks(t);
      }
    }
  }

  /** Every white space in the text is one of the blanks that the decoder strips. */
  predicate PlainSpace(s: string) { forall i :: 0 <= i < |s| && IsSpace(s[i]) ==> IsAsciiBlank(s[i]) }

  lemma {:induction false} StripAfterTrimLeft(s: string)
    requires PlainSpace(s)
    ensures StripBlanks(TrimLeft(s)) == StripBlanks(s)
  {
    if s != "" && IsSpace(s[0]) {
      var c, rest := s[0], s[1..];
      StripAfterTrimLeft(rest);
      StripStep(c, rest);
      assert s == [c] + rest;
    }
  }

  lemma {:induction false} StripAfterTrimRight(s: string)
    requires PlainSpace(s)
    ensures StripBlanks(TrimRight(s)) == StripBlanks(s)
  {
    if s != "" && IsSpace(s[|s| - 1]) {
      var front, c := s[..|s| - 1], s[|s| - 1];
      StripAfterTrimRight(front);
      StripSplits(front, [c]);
      StripStep(c, "");
      assert s == front + [c];
    }
  }

  lemma StripAfterTrim(s: string)
    requires PlainSpace(s)
    ensures StripBlanks(TrimSpace(s)) == StripBlanks(s)
  {
    StripAfterTrimLeft(s);
    TrimLeftTrims(s);
    StripAfterTrimRight(TrimLeft(s));
  }

  /** What stripping leaves is ASCII without white space: so is the text, but for its blanks. */
  lemma StrippedIsAscii(s: string, b: string, a: Alphabet, padded: bool)
    requires StripBlanks(s) == Encode(b, a, padded)
    ensures PlainSpace(s) && !HasPrefix(s, BOM)
  {
    EncodedChars(b, a, padded);
    forall i | 0 <= i < |s|
      ensures s[i] as int < 128 && (IsSpace(s[i]) ==> IsAsciiBlank(s[i]))
    {
      if !IsAsciiBlank(s[i]) {
        StripKeeps(s, s[i]);
        assert s[i] in Encode(b, a, padded);
      }
    }
    PrefixStarts(s, BOM);
    assert BOM[0] as int == 0xEF;
  }

  /** Every encoding of a byte string is read as those bytes, whatever blanks stand in it and
      whether a byte order mark stands before it. */
  lemma ReadsAllEncodings(b: string, a: Alphabet, padded: bool, s: string)
    requires IsBytes(b) && StripBlanks(s) == Encode(b, a, padded)
    ensures DecodeFaultTolerant(s) == Some(b) && DecodeFaultTolerant(BOM + s) == Some(b)
  {
    StrippedIsAscii(s, b, a, padded);
    MarkIsTrimmed(s);
    StripAfterTrim(s);
    RepadOfEncode(b, a, padded);
    ReadsPadded(b, a);
  }

  lemma MarkIsTrimmed(s: string)
    requires !HasPrefix(s, BOM)
    ensures TrimPrefix(s, BOM) == s && TrimPrefix(BOM + s, BOM) == s
  {
    assert (BOM + s)[..|BOM|] == BOM;
  }

  /** The two decoders in turn, the standard one first. */
  lemma ReadsPadded(b: string, a: Alphabet)
    requires IsBytes(b)
    ensures var text := Encode(b, a, true); var std := DecodeString(text, Std);
            (if std.Some? then std else DecodeString(text, Url)) == Some(b)
  {
    if a == Std {
      DecodeEncode(b, Std);
    } else {
      StdOfUrl(b);
    }
  }

  /** A text holding a byte outside both alphabets, such as the ':' or '?' of a link, is never
      taken for base64. */
  lemma ForeignByteIsRejected(s: string, c: char)
    requires c in s && c as int < 128 && !IsSpace(c) && c != '='
    requires Value(c, Std).None? && Value(c, Url).None?
    ensures DecodeFaultTolerant(s) == None && DecodeIfNeeded(s) == s
  {
    var t := TrimPrefix(s, BOM);
    assert c in t by {
      if HasPrefix(s, BOM) {
        assert s == BOM + t;
      }
    }
    TrimKeeps(t, c);
    StripKeeps(TrimSpace(t), c);
    var text := Repad(StripBlanks(TrimSpace(t)));
    assert c in text;
    DropKeeps(text, c);
    if DecodeString(text, Std).Some? {
      AcceptedChars(DropBreaks(text), Std);
    }
    if DecodeString(text, Url).Some? {
      AcceptedChars(DropBreaks(text), Url);
    }
  }

  lemma {:induction false} TrimLeftKeeps(s: string, c: char)
    requires !IsSpace(c) && c in s
    ensures c in TrimLeft(s)
  {
    if IsSpace(s[0]) {
      assert s == [s[0]] + s[1..];
      TrimLeftKeeps(s[1..], c);
    }
  }

  lemma {:induction false} TrimRightKeeps(s: string, c: char)
    requires !IsSpace(c) && c in s
    ensures c in TrimRight(s)
  {
    if IsSpace(s[|s| - 1]) {
      assert s == s[..|s| - 1] + [s[|s| - 1]];
      TrimRightKeeps(s[..|s| - 1], c);
    }
  }

  lemma TrimKeeps(s: string, c: char)
    requires !IsSpace(c) && c in s
    ensures c in TrimSpace(s)
  {
    TrimLeftKeeps(s, c);
    TrimRightKeeps(TrimLeft(s), c);
  }

  lemma {:induction false} DropKeeps(s: string, c: char)
    requires c != '\r' && c != '\n' && c in s
    ensures c in DropBreaks(s)
  {
    if c in s[1..] {
      DropKeeps(s[1..], c);
    } else {
      assert s == [s[0]] + s[1..];
    }
  }

  // ---- WireGuard keys ----

  lemma EncodeIsTrimmed(b: string, a: Alphabet, padded: bool)
    ensures Trimmed(Encode(b, a, padded)) && ':' !in Encode(b, a, padded)
    ensures Encode(b, a, padded) == "" <==> b == ""
  {
    EncodedChars(b, a, padded);
  }

  /** Any of the four encodings of 32 bytes, with white space around it, becomes the standard
      padded one. */
  lemma WgKeyFromAnyEncoding(b: string, a: Alphabet, padded: bool, s: string)
    requires IsBytes(b) && |b| == WG_KEY_BYTES && TrimSpace(s) == Encode(b, a, padded)
    ensures NormalizeWgKey(s) == Some(Encode(b, Std, true))
  {
    EncodeIsTrimmed(b, a, padded);
    EncodeInOther(b, padded);
    ToStdOfStd(b, padded);
    assert ToStd(Encode(b, a, padded)) == Encode(b, Std, padded);
    RawPlusPadding(b, Std);
    DecodeEncode(b, Std);
  }

  /** What is accepted is canonical: the standard padded form of 32 bytes, which normalising
      again leaves alone. */
  lemma WgKeyIsCanonical(s: string)
    requires NormalizeWgKey(s).Some? && NormalizeWgKey(s) != Some("")
    ensures exists b :: IsBytes(b) && |b| == WG_KEY_BYTES && NormalizeWgKey(s) == Some(Encode(b, Std, true))
    ensures NormalizeWgKey(NormalizeWgKey(s).value) == NormalizeWgKey(s)
  {
    var text := DropBreaks(Repad(TrimPadding(ToStd(TrimSpace(s)))));
    var b := DecodeGroups(text, Std).value;
    var k := Encode(b, Std, true);
    EncodeIsTrimmed(b, Std, true);
    TrimSpaceOfTrimmed(k);
    WgKeyFromAnyEncoding(b, Std, true, k);
  }

  // ---- Shadowsocks 2022 and Reality keys ----

  lemma SegmentFromAnyEncoding(b: string, a: Alphabet, padded: bool)
    requires IsBytes(b)
    ensures FixSegment(Encode(b, a, padded)) == Encode(b, Std, true)
  {
    var e := Encode(b, a, padded);
    EncodedChars(b, a, padded);
    NoBreaksToDrop(e);
    StdSpelling(b, a, padded);
    RepadOfEncode(b, Std, padded);
    if DecodeGroups(e, Std).Some? {
      AcceptedIsFixed(e);
    }
  }

  /** What the standard decoder accepts as it stands is not changed by fixing it. */
  lemma AcceptedIsFixed(s: string)
    requires DecodeGroups(s, Std).Some?
    ensures Repad(ToStd(s)) == s
  {
    AcceptedIsPlain(s);
    AcceptedLength(s, Std);
  }

  lemma StdSpelling(b: string, a: Alphabet, padded: bool)
    ensures ToStd(Encode(b, a, padded)) == Encode(b, Std, padded)
  {
    EncodeInOther(b, padded);
    ToStdOfStd(b, padded);
  }

  /** A password of ':'-joined keys, each in any of the four encodings, becomes the same keys in
      the standard padded one. */
  lemma PasswordFromAnyEncodings(bs: seq<string>, alphabets: seq<Alphabet>, padded: seq<bool>, parts: seq<string>,
          full: seq<string>)
    requires bs != [] && |alphabets| == |padded| == |parts| == |full| == |bs|
    requires forall i :: 0 <= i < |bs| ==>
               && IsBytes(bs[i]) && parts[i] == Encode(bs[i], alphabets[i], padded[i])
               && full[i] == Encode(bs[i], Std, true)
    ensures Join(FixSegments(Split(Join(parts, ':'), ':')), ':') == Join(full, ':')
  {
    forall i | 0 <= i < |parts|
      ensures ':' !in parts[i] && FixSegment(parts[i]) == full[i]
    {
      EncodeIsTrimmed(bs[i], alphabets[i], padded[i]);
      SegmentFromAnyEncoding(bs[i], alphabets[i], padded[i]);
    }
    SplitJoin(parts, ':');
    assert FixSegments(parts) == full;
  }

  /** All four become the raw url-safe form, the only one the Reality client decodes. */
  lemma RealityKeyFromAnyEncoding(b: string, a: Alphabet, padded: bool, s: string)
    requires TrimSpace(s) == Encode(b, a, padded)
    ensures NormalizeRealityPublicKey(s) == Encode(b, Url, false)
  {
    RawPlusPadding(b, a);
    EncodeInOther(b, false);
    ToStdOfStd(b, false);
  }
}
