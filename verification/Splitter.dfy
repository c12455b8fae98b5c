/**
 Cutting a subscription into records (xray2sing/ray2sing/spliter.go): lines are decoded one by
 one where they are base64, and the text is cut at every line that starts with a known prefix.
 The prefixes are a parameter, longest first, as the source sorts them.
 */
module Splitter {
  import opened Common
  import opened GoStrings
  import opened Keys
  import Base64

  predicate ValidPrefixes(prefixes: seq<string>) {
    forall i :: 0 <= i < |prefixes| ==> prefixes[i] != "" && '\n' !in prefixes[i]
  }

  // ---- Where records start ----

  /** The length of the first prefix that the text starts with, in any case; 0 if there is none. */
  function MatchLength(s: string, prefixes: seq<string>): (n: nat)
    ensures n <= |s|
  {
    if prefixes == [] then 0
    else if HasPrefix(Lower(s), Lower(prefixes[0])) then |prefixes[0]|
    else MatchLength(s, prefixes[1..])
  }

  predicate Known(s: string, prefixes: seq<string>) { MatchLength(s, prefixes) > 0 }

  predicate IsStart(text: string, i: nat, prefixes: seq<string>)
    requires i <= |text|
  {
    (i == 0 || text[i - 1] == '\n') && Known(text[i..], prefixes)
  }

  /** The matches of the pattern, one after the other: FindAllStringIndex. */
  function FindAll(text: string, from: nat, prefixes: seq<string>): seq<nat>
    requires from <= |text|
    decreases |text| - from
  {
    if from == |text| then []
    else if IsStart(text, from, prefixes) then
      [from] + FindAll(text, from + MatchLength(text[from..], prefixes), prefixes)
    else FindAll(text, from + 1, prefixes)
  }

  /** The next place where a record starts after the first byte, or the length. */
  function NextStart(s: string, from: nat, prefixes: seq<string>): (n: nat)
    requires from <= |s|
    ensures from <= n <= |s| && (n < |s| ==> IsStart(s, n, prefixes))
    ensures forall j :: from <= j < n ==> !IsStart(s, j, prefixes)
    decreases |s| - from
  {
    if from == |s| || IsStart(s, from, prefixes) then from else NextStart(s, from + 1, prefixes)
  }

  /** A text that starts with a record, cut before each further one. */
  function Pieces(s: string, prefixes: seq<string>): seq<string>
    decreases |s|
  {
    if s == "" then []
    else
      var n := NextStart(s, 1, prefixes);
      [s[..n]] + Pieces(s[n..], prefixes)
  }

  /** splitByPrefix: what stands before the first record is dropped; without any record the text
      stays whole. */
  function SplitRecords(text: string, prefixes: seq<string>): seq<string> {
    var first := NextStart(text, 0, prefixes);
    if first == |text| then [text] else Pieces(text[first..], prefixes)
  }

  method SplitByPrefix(text: string, prefixes: seq<string>) returns (result: seq<string>)
    requires ValidPrefixes(prefixes)
    ensures result == SplitRecords(text, prefixes)
  {
    var indexes := FindAll(text, 0, prefixes);
    FindAllIsNextStarts(text, 0, prefixes);
    if indexes == [] {
      return [text];
    }
    IndexesAreConsecutive(text, prefixes);
    ConsecutiveIsInOrder(text, indexes, prefixes);
    CutsArePieces(text, indexes, 0, prefixes);
    result := CutAtIndexes(text, indexes);
  }

  method CutAtIndexes(text: string, indexes: seq<nat>) returns (result: seq<string>)
    requires indexes != [] && InOrder(text, indexes)
    ensures result == Cuts(text, indexes)
  {
    result := [];
    for i := 0 to |indexes|
      invariant |result| == i && forall j :: 0 <= j < i ==> result[j] == Cuts(text, indexes)[j]
    {
      var end := if i + 1 < |indexes| then indexes[i + 1] else |text|;
      result := result + [text[indexes[i]..end]];
    }
  }

  predicate InOrder(text: string, indexes: seq<nat>) {
    forall i :: 0 <= i < |indexes| ==> indexes[i] <= EndOf(indexes, i + 1, text) && indexes[i] <= |text|
  }

  /** From each index to the next. */
  function Cuts(text: string, indexes: seq<nat>): (r: seq<string>)
    requires InOrder(text, indexes)
    ensures |r| == |indexes|
  {
    seq(|indexes|, i requires 0 <= i < |indexes| => text[indexes[i]..EndOf(indexes, i + 1, text)])
  }

  lemma ConsecutiveIsInOrder(text: string, indexes: seq<nat>, prefixes: seq<string>)
    requires Consecutive(text, indexes, prefixes)
    ensures InOrder(text, indexes)
  {
    forall i | 0 <= i < |indexes|
      ensures indexes[i] <= EndOf(indexes, i + 1, text) && indexes[i] <= |text|
    {
      PieceStep(text, indexes, i, prefixes);
    }
  }

  lemma {:induction false} CutsArePieces(text: string, indexes: seq<nat>, i: nat, prefixes: seq<string>)
    requires Consecutive(text, indexes, prefixes) && InOrder(text, indexes) && i <= |indexes|
    ensures PiecesFrom(text, indexes, i, prefixes) == Cuts(text, indexes)[i..]
    decreases |indexes| - i
  {
    if i == |indexes| {
      NoPieceLeft(text, indexes, prefixes);
    } else {
      PieceStep(text, indexes, i, prefixes);
      CutsArePieces(text, indexes, i + 1, prefixes);
      FirstCut(Cuts(text, indexes), i);
    }
  }

  lemma FirstCut(cuts: seq<string>, i: nat)
    requires i < |cuts|
    ensures cuts[i..] == [cuts[i]] + cuts[i + 1..]
  {
  }

  lemma NoPieceLeft(text: string, indexes: seq<nat>, prefixes: seq<string>)
    ensures PiecesFrom(text, indexes, |indexes|, prefixes) == []
  {
  }

  ghost function PiecesFrom(text: string, indexes: seq<nat>, i: nat, prefixes: seq<string>): seq<string> {
    Pieces(text[EndOf(indexes, i, text)..], prefixes)
  }

  lemma PieceStep(text: string, indexes: seq<nat>, i: nat, prefixes: seq<string>)
    requires Consecutive(text, indexes, prefixes) && i < |indexes|
    ensures indexes[i] <= EndOf(indexes, i + 1, text)
    ensures EndOf(indexes, i + 1, text) == if i + 1 < |indexes| then indexes[i + 1] else |text|
    ensures PiecesFrom(text, indexes, i, prefixes)
            == [text[indexes[i]..EndOf(indexes, i + 1, text)]] + PiecesFrom(text, indexes, i + 1, prefixes)
  {
    FirstPiece(text, indexes[i], prefixes);
    if i + 1 < |indexes| {
      assert indexes[i + 1] < |text|;
    }
  }

  /** Where a piece ends: at the next index, the last one at the end of the text. */
  function EndOf(indexes: seq<nat>, i: nat, text: string): (n: nat)
    ensures n <= |text|
  {
    if i < |indexes| && indexes[i] <= |text| then indexes[i] else |text|
  }

  ghost predicate Consecutive(text: string, indexes: seq<nat>, prefixes: seq<string>) {
    forall i :: 0 <= i < |indexes| ==>
      indexes[i] < |text| && NextStart(text, indexes[i] + 1, prefixes) == EndOf(indexes, i + 1, text)
  }

  lemma IndexesAreConsecutive(text: string, prefixes: seq<string>)
    requires ValidPrefixes(prefixes)
    ensures Consecutive(text, FindAll(text, 0, prefixes), prefixes)
  {
    var all := FindAll(text, 0, prefixes);
    forall i | 0 <= i < |all|
      ensures all[i] < |text| && NextStart(text, all[i] + 1, prefixes) == EndOf(all, i + 1, text)
    {
      ConsecutiveIndexes(text, 0, prefixes, i);
    }
  }

  lemma {:induction false} MatchIsPrefix(s: string, prefixes: seq<string>)
    requires ValidPrefixes(prefixes)
    ensures forall i :: 0 <= i < MatchLength(s, prefixes) ==> s[i] != '\n'
  {
    if prefixes != [] {
      if HasPrefix(Lower(s), Lower(prefixes[0])) {
        var p := prefixes[0];
        forall i | 0 <= i < |p|
          ensures s[i] != '\n'
        {
          assert Lower(s)[i] == Lower(p)[i];
        }
      } else {
        MatchIsPrefix(s, prefixes[1..]);
      }
    }
  }

  /** Matches cannot swallow a record's start: a prefix holds no line break. */
  lemma {:induction false} FindAllIsNextStarts(text: string, from: nat, prefixes: seq<string>)
    requires from <= |text| && ValidPrefixes(prefixes)
    ensures var all, n := FindAll(text, from, prefixes), NextStart(text, from, prefixes);
            if n == |text| then all == []
            else all != [] && all[0] == n && all[1..] == FindAll(text, n + MatchLength(text[n..], prefixes), prefixes)
    decreases |text| - from
  {
    if from < |text| {
      if !IsStart(text, from, prefixes) {
        FindAllIsNextStarts(text, from + 1, prefixes);
      }
    } else {
      assert text[from..] == "";
    }
  }

  /** Inside a match no record starts. */
  lemma NoStartInMatch(text: string, n: nat, prefixes: seq<string>)
    requires n < |text| && IsStart(text, n, prefixes) && ValidPrefixes(prefixes)
    ensures NextStart(text, n + 1, prefixes) == NextStart(text, n + MatchLength(text[n..], prefixes), prefixes)
  {
    var len := MatchLength(text[n..], prefixes);
    MatchIsPrefix(text[n..], prefixes);
    forall j | n <= j < n + len
      ensures text[j] != '\n'
    {
      assert text[n..][j - n] == text[j];
    }
    SkipsTo(text, n + 1, n + len, prefixes);
  }

  lemma {:induction false} SkipsTo(text: string, i: nat, j: nat, prefixes: seq<string>)
    requires i <= j <= |text| && forall k :: i <= k < j ==> !IsStart(text, k, prefixes)
    ensures NextStart(text, i, prefixes) == NextStart(text, j, prefixes)
    decreases j - i
  {
  }

  lemma FirstIndex(text: string, from: nat, prefixes: seq<string>) returns (rest: nat)
    requires from <= |text| && ValidPrefixes(prefixes) && FindAll(text, from, prefixes) != []
    ensures var all := FindAll(text, from, prefixes);
            && from < rest <= |text| && all[1..] == FindAll(text, rest, prefixes)
            && all[0] < |text| && IsStart(text, all[0], prefixes)
            && NextStart(text, all[0] + 1, prefixes) == if |all| > 1 then all[1] else |text|
  {
    FindAllIsNextStarts(text, from, prefixes);
    var n := NextStart(text, from, prefixes);
    rest := n + MatchLength(text[n..], prefixes);
    FindAllIsNextStarts(text, rest, prefixes);
    NoStartInMatch(text, n, prefixes);
  }

  /** Each index is followed by the next start. */
  lemma {:induction false} ConsecutiveIndexes(text: string, from: nat, prefixes: seq<string>, i: nat)
    requires from <= |text| && ValidPrefixes(prefixes) && i < |FindAll(text, from, prefixes)|
    ensures var all := FindAll(text, from, prefixes);
            && all[i] < |text| && IsStart(text, all[i], prefixes)
            && NextStart(text, all[i] + 1, prefixes) == if i + 1 < |all| then all[i + 1] else |text|
    decreases |text| - from
  {
    var rest := FirstIndex(text, from, prefixes);
    if i > 0 {
      ConsecutiveIndexes(text, rest, prefixes, i - 1);
    }
  }

  lemma {:induction false} ShiftedStarts(text: string, k: nat, j: nat, prefixes: seq<string>)
    requires k < k + j <= |text|
    ensures IsStart(text[k..], j, prefixes) == IsStart(text, k + j, prefixes)
  {
  }

  lemma {:induction false} ShiftedNextFrom(text: string, k: nat, j: nat, prefixes: seq<string>)
    requires k < k + j <= |text|
    ensures k + NextStart(text[k..], j, prefixes) == NextStart(text, k + j, prefixes)
    decreases |text| - k - j
  {
    ShiftedStarts(text, k, j, prefixes);
    if k + j < |text| {
      ShiftedNextFrom(text, k, j + 1, prefixes);
    }
  }

  lemma ShiftedNext(text: string, k: nat, prefixes: seq<string>)
    requires k < |text|
    ensures k + NextStart(text[k..], 1, prefixes) == NextStart(text, k + 1, prefixes)
  {
    ShiftedNextFrom(text, k, 1, prefixes);
  }

  /** The piece that starts at a place in the text. */
  lemma FirstPiece(text: string, start: nat, prefixes: seq<string>)
    requires start < |text|
    ensures var end := NextStart(text, start + 1, prefixes);
            Pieces(text[start..], prefixes) == [text[start..end]] + Pieces(text[end..], prefixes)
  {
    var end := NextStart(text, start + 1, prefixes);
    ShiftedNext(text, start, prefixes);
    assert text[start..][..end - start] == text[start..end];
    assert text[start..][end - start..] == text[end..];
  }

  // ---- Records cover the text ----

  /** It starts with a known prefix and no later line of it does. */
  predicate IsRecord(piece: string, prefixes: seq<string>) {
    && Known(piece, prefixes)
    && forall j :: 0 < j < |piece| && piece[j - 1] == '\n' ==> !Known(piece[j..], prefixes)
  }

  lemma {:induction false} PiecesConcat(s: string, prefixes: seq<string>)
    ensures Concat(Pieces(s, prefixes)) == s
    decreases |s|
  {
    if s != "" {
      PiecesConcat(s[NextStart(s, 1, prefixes)..], prefixes);
    }
  }

  lemma {:induction false} PartIsKnown(s: string, n: nat, prefixes: seq<string>)
    requires n <= |s| && ValidPrefixes(prefixes) && Known(s[..n], prefixes)
    ensures Known(s, prefixes)
  {
    var p := prefixes[0];
    if HasPrefix(Lower(s[..n]), Lower(p)) {
      assert Lower(s)[..|p|] == Lower(s[..n])[..|p|];
    } else if !HasPrefix(Lower(s), Lower(p)) {
      PartIsKnown(s, n, prefixes[1..]);
    }
  }

  lemma {:induction false} KnownInPart(s: string, n: nat, prefixes: seq<string>)
    requires n <= |s| && Known(s, prefixes) && MatchLength(s, prefixes) <= n
    ensures Known(s[..n], prefixes)
  {
    var p := prefixes[0];
    if HasPrefix(Lower(s), Lower(p)) {
      assert Lower(s[..n])[..|p|] == Lower(s)[..|p|];
    } else {
      KnownInPart(s, n, prefixes[1..]);
      NotInPart(s, n, p);
    }
  }

  lemma NotInPart(s: string, n: nat, p: string)
    requires n <= |s|
    ensures HasPrefix(Lower(s[..n]), Lower(p)) ==> HasPrefix(Lower(s), Lower(p))
  {
  }

  lemma FirstPieceIsKnown(s: string, prefixes: seq<string>)
    requires ValidPrefixes(prefixes) && s != "" && Known(s, prefixes)
    ensures Known(s[..NextStart(s, 1, prefixes)], prefixes)
  {
    var n := NextStart(s, 1, prefixes);
    MatchIsPrefix(s, prefixes);
    assert n < |s| ==> s[n - 1] == '\n';
    KnownInPart(s, n, prefixes);
  }

  lemma NoStartIsUnknown(s: string, j: nat, n: nat, prefixes: seq<string>)
    requires 0 < j < n <= |s| && s[j - 1] == '\n' && !IsStart(s, j, prefixes) && ValidPrefixes(prefixes)
    ensures !Known(s[j..n], prefixes)
  {
    assert s[j..n] == s[j..][..n - j];
    if Known(s[j..n], prefixes) {
      PartIsKnown(s[j..], n - j, prefixes);
    }
  }

  lemma FirstPieceIsRecord(s: string, prefixes: seq<string>)
    requires ValidPrefixes(prefixes) && s != "" && Known(s, prefixes)
    ensures IsRecord(s[..NextStart(s, 1, prefixes)], prefixes)
  {
    var n := NextStart(s, 1, prefixes);
    var piece := s[..n];
    FirstPieceIsKnown(s, prefixes);
    forall j | 0 < j < |piece| && piece[j - 1] == '\n'
      ensures !Known(piece[j..], prefixes)
    {
      NoStartIsUnknown(s, j, n, prefixes);
      assert piece[j..] == s[j..n];
    }
  }

  lemma {:induction false} PiecesAreRecords(s: string, prefixes: seq<string>)
    requires ValidPrefixes(prefixes) && (s == "" || Known(s, prefixes))
    ensures forall i :: 0 <= i < |Pieces(s, prefixes)| ==> IsRecord(Pieces(s, prefixes)[i], prefixes)
    decreases |s|
  {
    if s != "" {
      FirstPieceIsRecord(s, prefixes);
      PiecesAreRecords(s[NextStart(s, 1, prefixes)..], prefixes);
    }
  }

  /** When some line starts with a known prefix the records are the text from the first such line
      on, each starts with a known prefix, and no later line of a record does. */
  lemma RecordsCoverTheText(text: string, prefixes: seq<string>)
    requires ValidPrefixes(prefixes) && NextStart(text, 0, prefixes) < |text|
    ensures var first, records := NextStart(text, 0, prefixes), SplitRecords(text, prefixes);
            && Concat(records) == text[first..]
            && forall i :: 0 <= i < |records| ==> IsRecord(records[i], prefixes)
  {
    PiecesConcat(text[NextStart(text, 0, prefixes)..], prefixes);
    PiecesAreRecords(text[NextStart(text, 0, prefixes)..], prefixes);
  }

  // ---- A whole subscription ----

  function BreakChar(c: char): char { if c == '\r' || c == '\t' then '\n' else c }

  function Breaks(s: string): (r: string)
    ensures |r| == |s|
  {
    seq(|s|, i requires 0 <= i < |s| => BreakChar(s[i]))
  }

  function CleanLines(lines: seq<string>): (r: seq<string>)
    ensures |r| == |lines|
  {
    seq(|lines|, i requires 0 <= i < |lines| => TrimSpace(TrimPrefix(lines[i], BOM)))
  }

  /** The lines that a line stands for: itself, or what it is base64 of. */
  function OpenLine(line: string): seq<string> {
    CleanLines(Split(Breaks(DecodeIfNeeded(TrimPrefix(line, BOM))), '\n'))
  }

  function FlatMap(lines: seq<string>, f: string -> seq<string>): seq<string> {
    if lines == [] then [] else FlatMap(lines[..|lines| - 1], f) + f(lines[|lines| - 1])
  }

  function OpenLines(lines: seq<string>): seq<string> { FlatMap(lines, OpenLine) }

  predicate Comment(s: string) { s == "" || s[0] == '#' || s[0] == '/' }

  function Uncommented(t: string): seq<string> { if Comment(t) then [] else [t] }

  function KeptOf(piece: string): seq<string> { Uncommented(TrimSpace(piece)) }

  function Kept(pieces: seq<string>): seq<string> { FlatMap(pieces, KeptOf) }

  function Expand(configs: string, prefixes: seq<string>): seq<string> {
    Kept(SplitRecords(Join(OpenLines(Split(configs, '\n')), '\n'), prefixes))
  }

  /** expandDecodedConfig */
  method ExpandDecodedConfig(configs: string, prefixes: seq<string>) returns (res: seq<string>)
    requires ValidPrefixes(prefixes)
    ensures res == Expand(configs, prefixes)
  {
    var configs2 := CollectLines(Split(configs, '\n'), OpenLine);
    var pieces := SplitByPrefix(Join(configs2, '\n'), prefixes);
    res := AddKept(pieces);
  }

  method CollectLines(lines: seq<string>, read: string -> seq<string>) returns (r: seq<string>)
    ensures r == FlatMap(lines, read)
  {
    r := [];
    for i := 0 to |lines|
      invariant r == FlatMap(lines[..i], read)
    {
      assert lines[..i + 1][..i] == lines[..i];
      r := r + read(lines[i]);
    }
    assert lines[..|lines|] == lines;
  }

  method AddKept(pieces: seq<string>) returns (res: seq<string>)
    ensures res == Kept(pieces)
  {
    res := [];
    for i := 0 to |pieces|
      invariant res == Kept(pieces[..i])
    {
      assert pieces[..i + 1][..i] == pieces[..i];
      var tc := TrimSpace(pieces[i]);
      if !Comment(tc) {
        res := res + [tc];
      }
    }
    assert pieces[..|pieces|] == pieces;
  }

  // ---- One record a line ----

  /** A link or a comment: a known prefix, no white space around it, no break in it, and a byte
      that base64 does not have. */
  predicate IsRecordText(t: string, prefixes: seq<string>) {
    && Known(t, prefixes) && Trimmed(t) && (':' in t || '#' in t) && !HasPrefix(t, BOM)
    && '\n' !in t && '\r' !in t && '\t' !in t
  }

  function LineText(line: string): string { TrimSpace(TrimPrefix(line, BOM)) }

  function Texts(lines: seq<string>): (r: seq<string>)
    ensures |r| == |lines|
  {
    seq(|lines|, i requires 0 <= i < |lines| => LineText(lines[i]))
  }

  /** A line of a subscription: blank, or a link or comment with white space around it, a carriage
      return included, and perhaps a byte order mark in front. */
  predicate IsLine(line: string, prefixes: seq<string>) {
    '\n' !in line && (LineText(line) == "" || IsRecordText(LineText(line), prefixes))
  }

  predicate AreLines(lines: seq<string>, prefixes: seq<string>) {
    forall i :: 0 <= i < |lines| ==> IsLine(lines[i], prefixes)
  }

  /** The texts that are neither blank nor comments. */
  function Records(texts: seq<string>): seq<string> { FlatMap(texts, Uncommented) }

  function NonBlank(t: string): seq<string> { if t == "" then [] else [t] }

  function Filled(texts: seq<string>): seq<string> { FlatMap(texts, NonBlank) }

  lemma OneMapped(x: string, f: string -> seq<string>)
    ensures FlatMap([x], f) == f(x)
  {
    assert [x][..0] == [];
  }

  lemma LastMapped(s: seq<string>, x: string, f: string -> seq<string>)
    ensures FlatMap(s + [x], f) == FlatMap(s, f) + f(x)
  {
    assert (s + [x])[..|s|] == s;
  }

  lemma {:induction false} FlatMapAppend(a: seq<string>, b: seq<string>, f: string -> seq<string>)
    ensures FlatMap(a + b, f) == FlatMap(a, f) + FlatMap(b, f)
    decreases |b|
  {
    if b == [] {
      assert a + b == a;
    } else {
      var front, x := b[..|b| - 1], b[|b| - 1];
      calc {
        FlatMap(a + b, f);
        { assert a + b == (a + front) + [x]; }
        FlatMap((a + front) + [x], f);
        { LastMapped(a + front, x, f); }
        FlatMap(a + front, f) + f(x);
        { FlatMapAppend(a, front, f); }
        (FlatMap(a, f) + FlatMap(front, f)) + f(x);
        FlatMap(a, f) + (FlatMap(front, f) + f(x));
        { LastMapped(front, x, f); assert b == front + [x]; }
        FlatMap(a, f) + FlatMap(b, f);
      }
    }
  }

  lemma FirstMapped(x: string, rest: seq<string>, f: string -> seq<string>)
    ensures FlatMap([x] + rest, f) == f(x) + FlatMap(rest, f)
  {
    FlatMapAppend([x], rest, f);
    OneMapped(x, f);
  }

  lemma {:induction false} FilledHolds(texts: seq<string>)
    ensures forall t :: t in Filled(texts) <==> t in texts && t != ""
  {
    if texts != [] {
      FilledHolds(texts[..|texts| - 1]);
      assert texts == texts[..|texts| - 1] + [texts[|texts| - 1]];
    }
  }

  lemma {:induction false} RecordsOfFilled(texts: seq<string>)
    ensures Records(Filled(texts)) == Records(texts)
  {
    if texts != [] {
      var n := |texts| - 1;
      RecordsOfFilled(texts[..n]);
      FlatMapAppend(Filled(texts[..n]), NonBlank(texts[n]), Uncommented);
      RecordsOfOne(texts[n]);
    }
  }

  lemma RecordsOfOne(t: string)
    ensures FlatMap(NonBlank(t), Uncommented) == Uncommented(t)
  {
    OneMapped(t, Uncommented);
  }

  // ---- What the lines of a text are ----

  function CleanSplit(s: string): seq<string> { CleanLines(Split(s, '\n')) }

  /** The lines of a text, cleaned, without the blank ones. */
  function Shown(s: string): seq<string> { Filled(CleanSplit(s)) }

  lemma ShownConcat(a: string, b: string)
    ensures Shown(a + "\n" + b) == Shown(a) + Shown(b)
  {
    SplitConcat(a, '\n', b);
    assert CleanSplit(a + ['\n'] + b) == CleanSplit(a) + CleanSplit(b);
    FlatMapAppend(CleanSplit(a), CleanSplit(b), NonBlank);
  }

  lemma ShownLine(s: string)
    requires '\n' !in s
    ensures Shown(s) == NonBlank(LineText(s))
  {
    SplitAt(s, '\n', "");
    assert CleanLines([s]) == [LineText(s)];
    OneMapped(LineText(s), NonBlank);
  }

  lemma MarkBytes()
    ensures |BOM| == 3 && '\n' !in BOM && Breaks(BOM) == BOM && !IsSpace(BOM[0])
    ensures BOM[0] != ':' && BOM[0] != '#'
  {
  }

  /** A line that shows nothing may stand before a text, and after it. */
  lemma ShownAfter(blank: string, s: string)
    requires Shown(blank) == []
    ensures Shown(blank + "\n" + s) == Shown(s) && Shown(s + "\n" + blank) == Shown(s)
  {
    ShownConcat(blank, s);
    ShownConcat(s, blank);
  }

  lemma {:induction false} BlankShows(x: string)
    requires Blank(x)
    ensures Shown(x) == [] && !HasPrefix(x, BOM) && TrimSpace(x) == ""
    decreases |x|
  {
    BlankHasNoMark(x);
    if '\n' !in x {
      ShownLine(x);
    } else {
      var first, rest := CutAtFirst(x, '\n');
      BlankParts(first, "\n", rest);
      BlankShows(first);
      BlankShows(rest);
      ShownAfter(first, rest);
    }
  }

  lemma BlankParts(a: string, b: string, c: string)
    requires Blank(a + b + c)
    ensures Blank(a) && Blank(c)
  {
    var x := a + b + c;
    assert forall i :: 0 <= i < |a| ==> a[i] == x[i];
    assert forall i :: 0 <= i < |c| ==> c[i] == x[|a| + |b| + i];
  }

  lemma BlankHasNoMark(x: string)
    requires Blank(x)
    ensures !HasPrefix(x, BOM) && TrimSpace(x) == ""
  {
    MarkBytes();
    PrefixStarts(x, BOM);
    TrimSpaceAround(x, "", "");
    assert x + "" + "" == x;
  }

  /** A text with white space around it does not start with a byte order mark. */
  lemma NoMarkBefore(a: string, t: string, b: string)
    requires Blank(a) && t != "" && !HasPrefix(t, BOM) && Trimmed(t) && Blank(b)
    ensures !HasPrefix(a + t + b, BOM)
  {
    var x := a + t + b;
    MarkBytes();
    PrefixStarts(x, BOM);
    if a == "" {
      assert x == t + b;
      MarkWithin(t, b);
    } else {
      assert x[0] == a[0];
    }
  }

  lemma MarkWithin(t: string, b: string)
    requires t != "" && !HasPrefix(t, BOM) && Blank(b)
    ensures !HasPrefix(t + b, BOM)
  {
    var x := t + b;
    if |t| >= |BOM| {
      assert t[..|BOM|] == x[..|BOM|];
    } else if |x| >= |BOM| {
      assert x[|t|] == b[0] && x[..|BOM|][|t|] == x[|t|];
      MarkHasNoSpace(|t|);
    }
  }

  lemma MarkHasNoSpace(i: nat)
    requires i < |BOM|
    ensures !IsSpace(BOM[i])
  {
  }

  lemma {:induction false} AroundShows(a: string, t: string, b: string)
    requires Blank(a) && Blank(b) && t != "" && Trimmed(t) && '\n' !in t && !HasPrefix(t, BOM)
    ensures Shown(a + t + b) == [t]
    decreases |a| + |b|
  {
    if '\n' in a {
      var first, rest := CutAtFirst(a, '\n');
      BlankParts(first, "\n", rest);
      AroundShows(rest, t, b);
      BlankLineBefore(first, rest, t, b);
    } else if '\n' in b {
      var first, rest := CutAtFirst(b, '\n');
      BlankParts(first, "\n", rest);
      AroundShows(a, t, first);
      BlankLineAfter(a, t, first, rest);
    } else {
      OneLineShows(a, t, b);
    }
  }

  lemma BlankLineBefore(first: string, rest: string, t: string, b: string)
    requires Blank(first)
    ensures Shown(first + "\n" + rest + t + b) == Shown(rest + t + b)
  {
    BlankShows(first);
    ShownAfter(first, rest + t + b);
    Regroup(first + "\n", rest, t, b);
  }

  lemma BlankLineAfter(a: string, t: string, first: string, rest: string)
    requires Blank(rest)
    ensures Shown(a + t + (first + "\n" + rest)) == Shown(a + t + first)
  {
    BlankShows(rest);
    ShownAfter(rest, a + t + first);
    Regroup(a + t, first, "\n", rest);
  }

  lemma OneLineShows(a: string, t: string, b: string)
    requires Blank(a) && Blank(b) && t != "" && Trimmed(t) && !HasPrefix(t, BOM)
    requires '\n' !in a && '\n' !in t && '\n' !in b
    ensures Shown(a + t + b) == [t]
  {
    NoMarkBefore(a, t, b);
    TrimSpaceAround(a, t, b);
    ShownLine(a + t + b);
  }

  lemma BreaksAppend(a: string, b: string)
    ensures Breaks(a + b) == Breaks(a) + Breaks(b)
  {
  }

  lemma BreaksOfBlank(x: string)
    requires Blank(x)
    ensures Blank(Breaks(x))
  {
  }

  lemma BreaksOfText(t: string)
    requires '\r' !in t && '\t' !in t
    ensures Breaks(t) == t
  {
  }

  predicate IsText(t: string, prefixes: seq<string>) { t == "" || IsRecordText(t, prefixes) }

  /** A line without a byte order mark is its text and nothing else. */
  lemma PlainLineShows(x: string, prefixes: seq<string>)
    requires IsText(TrimSpace(x), prefixes)
    ensures Shown(Breaks(x)) == NonBlank(TrimSpace(x)) && !HasPrefix(x, BOM)
  {
    var t := TrimSpace(x);
    var a, b := TrimSpaceCuts(x);
    if t == "" {
      assert x == a + b;
      BreaksOfBlank(x);
      BlankShows(x);
      BlankShows(Breaks(x));
    } else {
      BreaksAppend(a + t, b);
      BreaksAppend(a, t);
      BreaksOfBlank(a);
      BreaksOfBlank(b);
      BreaksOfText(t);
      NoMarkBefore(a, t, b);
      AroundShows(Breaks(a), t, Breaks(b));
    }
  }

  lemma MarkedLine(s: string)
    requires '\n' !in s && !HasPrefix(s, BOM)
    ensures Shown(BOM + s) == Shown(s)
  {
    MarkBytes();
    assert '\n' !in BOM + s;
    assert (BOM + s)[..|BOM|] == BOM && (BOM + s)[|BOM|..] == s;
    ShownLine(s);
    ShownLine(BOM + s);
  }

  lemma StartHasNoMark(first: string, rest: string)
    requires !HasPrefix(first + rest, BOM)
    ensures !HasPrefix(first, BOM)
  {
    if |first| >= |BOM| {
      assert (first + rest)[..|BOM|] == first[..|BOM|];
    }
  }

  /** A byte order mark in front of a text is dropped from its first line. */
  lemma MarkIsDropped(x: string)
    requires !HasPrefix(x, BOM)
    ensures Shown(BOM + x) == Shown(x)
  {
    if '\n' !in x {
      MarkedLine(x);
    } else {
      var first, rest := CutAtFirst(x, '\n');
      StartHasNoMark(first, "\n" + rest);
      assert x == first + ("\n" + rest);
      MarkedLine(first);
      MarkedLines(first, rest);
    }
  }

  lemma MarkedLines(first: string, rest: string)
    requires Shown(BOM + first) == Shown(first)
    ensures Shown(BOM + (first + "\n" + rest)) == Shown(first + "\n" + rest)
  {
    ShownConcat(first, rest);
    ShownConcat(BOM + first, rest);
    Regroup(BOM, first, "\n", rest);
  }

  lemma BreaksKeepMark(x: string)
    requires !HasPrefix(x, BOM)
    ensures !HasPrefix(Breaks(x), BOM)
  {
    if |x| >= |BOM| {
      assert Breaks(x)[..|BOM|] == Breaks(x[..|BOM|]);
      BreaksGiveNoMark(x[..|BOM|]);
    }
  }

  lemma BreaksGiveNoMark(x: string)
    ensures Breaks(x) == BOM ==> x == BOM
  {
    if Breaks(x) == BOM {
      forall i | 0 <= i < |BOM|
        ensures x[i] == BOM[i]
      {
        MarkHasNoSpace(i);
        assert Breaks(x)[i] == BreakChar(x[i]);
      }
    }
  }

  lemma LineShows(line: string, prefixes: seq<string>)
    requires IsLine(line, prefixes)
    ensures Shown(Breaks(line)) == NonBlank(LineText(line))
  {
    var x := TrimPrefix(line, BOM);
    PlainLineShows(x, prefixes);
    if x != line {
      assert line == BOM + x;
      BreaksAppend(BOM, x);
      MarkBytes();
      BreaksKeepMark(x);
      MarkIsDropped(Breaks(x));
    }
  }

  /** The same once the line has gone through the base64 decoder: it is no base64, or blank. */
  lemma LineOpens(line: string, prefixes: seq<string>)
    requires IsLine(line, prefixes)
    ensures Filled(OpenLine(line)) == NonBlank(LineText(line))
  {
    var x := TrimPrefix(line, BOM);
    var t := LineText(line);
    PlainLineShows(x, prefixes);
    if t == "" {
      BlankDecodes(x);
      ShownLine("");
      assert Breaks("") == "";
    } else {
      var a, b := TrimSpaceCuts(x);
      var c := if ':' in t then ':' else '#';
      assert c in x;
      ForeignByteIsRejected(x, c);
    }
  }

  lemma BlankDecodes(x: string)
    requires TrimSpace(x) == "" && !HasPrefix(x, BOM)
    ensures DecodeIfNeeded(x) == ""
  {
    assert Repad(StripBlanks("")) == "";
    assert Base64.DecodeString("", Base64.Std) == Some("");
  }

  lemma {:induction false} FilledEach(lines: seq<string>, texts: seq<string>, f: string -> seq<string>)
    requires |lines| == |texts| && forall i :: 0 <= i < |lines| ==> Filled(f(lines[i])) == NonBlank(texts[i])
    ensures Filled(FlatMap(lines, f)) == Filled(texts)
    decreases |lines|
  {
    if lines != [] {
      var n := |lines| - 1;
      FilledEach(lines[..n], texts[..n], f);
      FlatMapAppend(FlatMap(lines[..n], f), f(lines[n]), NonBlank);
    }
  }

  lemma LinesOpen(lines: seq<string>, prefixes: seq<string>)
    requires AreLines(lines, prefixes)
    ensures Filled(OpenLines(lines)) == Filled(Texts(lines))
  {
    forall i | 0 <= i < |lines|
      ensures Filled(OpenLine(lines[i])) == NonBlank(Texts(lines)[i])
    {
      assert IsLine(lines[i], prefixes);
      LineOpens(lines[i], prefixes);
    }
    FilledEach(lines, Texts(lines), OpenLine);
  }

  lemma {:induction false} TextShows(lines: seq<string>, prefixes: seq<string>)
    requires AreLines(lines, prefixes) && lines != []
    ensures Shown(Breaks(Join(lines, '\n'))) == Filled(Texts(lines))
    decreases |lines|
  {
    var line, others := lines[0], lines[1..];
    assert IsLine(line, prefixes);
    LineShows(line, prefixes);
    assert Texts(lines) == [LineText(line)] + Texts(others);
    FirstMapped(LineText(line), Texts(others), NonBlank);
    if others != [] {
      TextShows(others, prefixes);
      LineAndMoreShow(line, Join(others, '\n'));
    }
  }

  lemma LineAndMoreShow(line: string, more: string)
    ensures Shown(Breaks(line + "\n" + more)) == Shown(Breaks(line)) + Shown(Breaks(more))
  {
    BreaksAppend(line + "\n", more);
    BreaksAppend(line, "\n");
    assert Breaks("\n") == "\n";
    ShownConcat(Breaks(line), Breaks(more));
  }

  // ---- Records and blank lines ----

  predicate AreTexts(texts: seq<string>, prefixes: seq<string>) {
    forall i :: 0 <= i < |texts| ==> IsText(texts[i], prefixes)
  }

  lemma BreakIsNoPrefix(s: string, p: string)
    requires p != "" && '\n' !in p && (s == "" || s[0] == '\n')
    ensures !HasPrefix(Lower(s), Lower(p))
  {
    assert p[0] in p;
    PrefixStarts(Lower(s), Lower(p));
  }

  lemma {:induction false} BreakIsUnknown(s: string, prefixes: seq<string>)
    requires ValidPrefixes(prefixes) && (s == "" || s[0] == '\n')
    ensures !Known(s, prefixes)
  {
    if prefixes != [] {
      BreakIsNoPrefix(s, prefixes[0]);
      BreakIsUnknown(s, prefixes[1..]);
    }
  }

  /** A record with the ends of the blank lines that follow it. */
  ghost predicate IsHead(h: string, t: string, prefixes: seq<string>) {
    && t != "" && IsRecordText(t, prefixes) && HasPrefix(h, t)
    && forall i :: |t| <= i < |h| ==> h[i] == '\n'
  }

  lemma NoStartInHead(h: string, t: string, more: string, j: nat, prefixes: seq<string>)
    requires ValidPrefixes(prefixes) && IsHead(h, t, prefixes) && 1 <= j <= |h|
    requires more == "" || more[0] == '\n'
    ensures !IsStart(h + more, j, prefixes)
  {
    var s := h + more;
    forall k | 0 <= k < |t|
      ensures s[k] != '\n'
    {
      assert h[..|t|][k] == s[k] && t[k] in t;
    }
    if s[j - 1] == '\n' {
      if j == |h| {
        assert s[j..] == more;
      }
      BreakIsUnknown(s[j..], prefixes);
    }
  }

  lemma HeadAlone(h: string, t: string, prefixes: seq<string>)
    requires ValidPrefixes(prefixes) && IsHead(h, t, prefixes)
    ensures Pieces(h, prefixes) == [h]
  {
    forall j | 1 <= j < |h|
      ensures !IsStart(h, j, prefixes)
    {
      NoStartInHead(h, t, "", j, prefixes);
      assert h + "" == h;
    }
    SkipsTo(h, 1, |h|, prefixes);
    assert h[..|h|] == h && h[|h|..] == "";
  }

  lemma HeadBefore(h: string, t: string, rest: string, prefixes: seq<string>)
    requires ValidPrefixes(prefixes) && IsHead(h, t, prefixes) && Known(rest, prefixes)
    ensures Pieces(h + "\n" + rest, prefixes) == [h + "\n"] + Pieces(rest, prefixes)
  {
    var s := h + "\n" + rest;
    forall j | 1 <= j < |h| + 1
      ensures !IsStart(s, j, prefixes)
    {
      NoStartInHead(h, t, "\n" + rest, j, prefixes);
      assert h + ("\n" + rest) == s;
    }
    SkipsTo(s, 1, |h| + 1, prefixes);
    assert s[|h| + 1..] == rest && s[|h|] == '\n' && s[..|h| + 1] == h + "\n";
    assert IsStart(s, |h| + 1, prefixes);
  }

  lemma HeadIsTrimmed(h: string, t: string, prefixes: seq<string>)
    requires IsHead(h, t, prefixes)
    ensures TrimSpace(h) == t && IsHead(h + "\n", t, prefixes)
  {
    assert h == "" + t + h[|t|..];
    TrimSpaceAround("", t, h[|t|..]);
    assert (h + "\n")[..|t|] == h[..|t|];
  }

  function AfterHead(h: string, texts: seq<string>): string {
    if texts == [] then h else h + "\n" + Join(texts, '\n')
  }

  /** A record, the blank lines after it, and what follows. */
  lemma {:induction false} HeadAndRest(h: string, t: string, texts: seq<string>, prefixes: seq<string>)
    requires ValidPrefixes(prefixes) && IsHead(h, t, prefixes) && AreTexts(texts, prefixes)
    ensures Kept(Pieces(AfterHead(h, texts), prefixes)) == Uncommented(t) + Records(texts)
    decreases |texts|
  {
    HeadIsTrimmed(h, t, prefixes);
    if texts == [] {
      HeadAlone(h, t, prefixes);
      OneMapped(h, KeptOf);
    } else {
      var first, others := texts[0], texts[1..];
      assert IsText(first, prefixes) && texts == [first] + others;
      FirstMapped(first, others, Uncommented);
      if first == "" {
        HeadAndRest(h + "\n", t, others, prefixes);
        BlankAfterHead(h, texts);
      } else {
        RecordIsHead(texts, prefixes);
        HeadAndRest(first, first, others, prefixes);
        HeadIsTrimmed(h + "\n", t, prefixes);
        RecordAfterHead(h, t, Join(texts, '\n'), prefixes);
      }
    }
  }

  lemma RecordAfterHead(h: string, t: string, rest: string, prefixes: seq<string>)
    requires ValidPrefixes(prefixes) && IsHead(h, t, prefixes) && Known(rest, prefixes) && TrimSpace(h + "\n") == t
    ensures Kept(Pieces(h + "\n" + rest, prefixes)) == Uncommented(t) + Kept(Pieces(rest, prefixes))
  {
    HeadBefore(h, t, rest, prefixes);
    FirstMapped(h + "\n", Pieces(rest, prefixes), KeptOf);
  }

  lemma BlankAfterHead(h: string, texts: seq<string>)
    requires texts != [] && texts[0] == ""
    ensures AfterHead(h, texts) == AfterHead(h + "\n", texts[1..])
  {
    if |texts| == 1 {
      assert h + "\n" + "" == h + "\n";
    } else {
      var rest := Join(texts[1..], '\n');
      assert h + "\n" + ("" + ['\n'] + rest) == h + "\n" + "\n" + rest;
    }
  }

  lemma RecordIsHead(texts: seq<string>, prefixes: seq<string>)
    requires ValidPrefixes(prefixes) && texts != [] && IsRecordText(texts[0], prefixes) && texts[0] != ""
    ensures Join(texts, '\n') == AfterHead(texts[0], texts[1..]) && Known(Join(texts, '\n'), prefixes)
    ensures IsHead(texts[0], texts[0], prefixes)
  {
    var s := Join(texts, '\n');
    assert s[..|texts[0]|] == texts[0];
    PartIsKnown(s, |texts[0]|, prefixes);
  }

  lemma {:induction false} ShiftedByBreak(x: string, i: nat, prefixes: seq<string>)
    requires i <= |x|
    ensures NextStart("\n" + x, 1 + i, prefixes) == 1 + NextStart(x, i, prefixes)
    decreases |x| - i
  {
    assert ("\n" + x)[1 + i..] == x[i..];
    if i < |x| {
      ShiftedByBreak(x, i + 1, prefixes);
    }
  }

  lemma BreakDropsOut(x: string)
    ensures TrimSpace("\n" + x) == TrimSpace(x)
  {
    assert ("\n" + x)[1..] == x;
  }

  /** A blank line in front changes nothing. */
  lemma BlankInFront(x: string, prefixes: seq<string>)
    requires ValidPrefixes(prefixes)
    ensures Kept(SplitRecords("\n" + x, prefixes)) == Kept(SplitRecords(x, prefixes))
  {
    var s := "\n" + x;
    assert s[0..] == s && s[1..] == x;
    BreakIsUnknown(s, prefixes);
    SkipsTo(s, 0, 1, prefixes);
    ShiftedByBreak(x, 0, prefixes);
    var n := NextStart(x, 0, prefixes);
    if n < |x| {
      assert s[n + 1..] == x[n..];
    } else {
      BreakDropsOut(x);
      OneMapped(s, KeptOf);
      OneMapped(x, KeptOf);
    }
  }

  lemma RecordsFromTheStart(s: string, prefixes: seq<string>)
    requires Known(s, prefixes)
    ensures SplitRecords(s, prefixes) == Pieces(s, prefixes)
  {
    assert s[0..] == s;
    assert IsStart(s, 0, prefixes);
  }

  /** Blank lines anywhere, every record on a line of its own: exactly the records are kept. */
  lemma {:induction false} TextsComeApart(texts: seq<string>, prefixes: seq<string>)
    requires ValidPrefixes(prefixes) && AreTexts(texts, prefixes)
    ensures Kept(SplitRecords(Join(texts, '\n'), prefixes)) == Records(texts)
    decreases |texts|
  {
    if texts == [] {
      NothingToKeep(prefixes);
    } else {
      var first, others := texts[0], texts[1..];
      assert IsText(first, prefixes) && texts == [first] + others;
      FirstMapped(first, others, Uncommented);
      if first != "" {
        RecordIsHead(texts, prefixes);
        RecordsFromTheStart(Join(texts, '\n'), prefixes);
        HeadAndRest(first, first, others, prefixes);
      } else if others == [] {
        NothingToKeep(prefixes);
      } else {
        TextsComeApart(others, prefixes);
        BlankInFront(Join(others, '\n'), prefixes);
        BlankJoined(others);
      }
    }
  }

  lemma BlankJoined(others: seq<string>)
    requires others != []
    ensures Join([""] + others, '\n') == "\n" + Join(others, '\n')
  {
    JoinStep("", others, '\n');
  }

  lemma NothingToKeep(prefixes: seq<string>)
    ensures Kept(SplitRecords("", prefixes)) == []
  {
    OneMapped("", KeptOf);
  }

  lemma SameFilled(cleaned: seq<string>, lines: seq<string>, prefixes: seq<string>)
    requires AreLines(lines, prefixes) && Filled(cleaned) == Filled(Texts(lines))
    ensures AreTexts(cleaned, prefixes) && Records(cleaned) == Records(Texts(lines))
  {
    RecordsOfFilled(cleaned);
    RecordsOfFilled(Texts(lines));
    FilledHolds(cleaned);
    FilledHolds(Texts(lines));
    forall i | 0 <= i < |cleaned|
      ensures IsText(cleaned[i], prefixes)
    {
      if cleaned[i] != "" {
        assert cleaned[i] in Filled(cleaned);
        var j :| 0 <= j < |lines| && Texts(lines)[j] == cleaned[i];
        assert IsLine(lines[j], prefixes);
      }
    }
  }

  /** The texts that are not empty and start neither with '#' nor with '/'. */
  function LinksIn(texts: seq<string>): seq<string> {
    if texts == [] then []
    else
      var t := texts[|texts| - 1];
      LinksIn(texts[..|texts| - 1]) + if t == "" || t[0] == '#' || t[0] == '/' then [] else [t]
  }

  lemma {:induction false} RecordsAreLinks(texts: seq<string>)
    ensures Records(texts) == LinksIn(texts)
    decreases |texts|
  {
    if texts != [] {
      RecordsAreLinks(texts[..|texts| - 1]);
    }
  }

  /** A subscription of links, comments and blank lines comes apart into exactly its links, in
      order and trimmed. */
  lemma LinksComeApart(lines: seq<string>, prefixes: seq<string>)
    requires ValidPrefixes(prefixes) && AreLines(lines, prefixes) && lines != []
    ensures Expand(Join(lines, '\n'), prefixes) == LinksIn(Texts(lines))
  {
    assert Free(lines, '\n') by {
      assert forall i :: 0 <= i < |lines| ==> IsLine(lines[i], prefixes);
    }
    SplitJoin(lines, '\n');
    LinesOpen(lines, prefixes);
    SameFilled(OpenLines(lines), lines, prefixes);
    TextsComeApart(OpenLines(lines), prefixes);
    RecordsAreLinks(Texts(lines));
  }

  /** The same for a subscription that is base64 as a whole, in any of the four encodings. */
  lemma EncodedLinksComeApart(lines: seq<string>, a: Base64.Alphabet, padded: bool, prefixes: seq<string>)
    requires ValidPrefixes(prefixes) && AreLines(lines, prefixes) && lines != [] && IsBytes(Join(lines, '\n'))
    ensures Expand(Base64.Encode(Join(lines, '\n'), a, padded), prefixes) == LinksIn(Texts(lines))
  {
    var text := Join(lines, '\n');
    var code := Base64.Encode(text, a, padded);
    EncodedIsOneLine(text, a, padded);
    TextShows(lines, prefixes);
    OneMapped(code, OpenLine);
    SameFilled(OpenLine(code), lines, prefixes);
    TextsComeApart(OpenLine(code), prefixes);
    RecordsAreLinks(Texts(lines));
  }

  lemma EncodedIsOneLine(text: string, a: Base64.Alphabet, padded: bool)
    requires IsBytes(text)
    ensures var code := Base64.Encode(text, a, padded);
            Split(code, '\n') == [code] && TrimPrefix(code, BOM) == code && DecodeIfNeeded(code) == text
  {
    var code := Base64.Encode(text, a, padded);
    Base64.EncodedChars(text, a, padded);
    assert '\n' !in code;
    assert !HasPrefix(code, BOM) by {
      assert BOM[0] as int == 0xEF;
      if code != "" {
        assert code[0] in code;
      }
    }
    assert forall i :: 0 <= i < |code| ==> code[i] in code;
    StripsNothing(code);
    ReadsAllEncodings(text, a, padded, code);
  }
}
