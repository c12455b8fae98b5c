/**
 The rotating core log: lines are kept in memory until the working directory is known, then
 written to core.log, which becomes core.log.1 when it outgrows its cap.

 One directory, file operations that succeed, and texts measured in bytes.
 */
module CoreLog {
  import opened GoStrings

  /** The two files; one that does not exist is empty. */
  datatype Files = Files(current: string, backup: string)

  datatype Writer = Writer(isOpen: bool, size: nat, backlog: seq<string>, files: Files)

  const BACKLOG_CAP := 200

  // ---- The operations as functions of the state ----

  function Write(w: Writer, line: string, cap: nat): Writer {
    var grown := w.files.current + line;
    if w.size + |line| <= cap
    then w.(size := w.size + |line|, files := w.files.(current := grown))
    else w.(size := 0, files := Files("", grown))
  }

  function WriteAll(w: Writer, lines: seq<string>, cap: nat): Writer
    decreases |lines|
  {
    if lines == [] then w else WriteAll(Write(w, lines[0], cap), lines[1..], cap)
  }

  function Open(w: Writer, cap: nat): Writer {
    if w.isOpen then w
    else
      var files := if |w.files.current| > cap then Files("", w.files.current) else w.files;
      WriteAll(Writer(true, |files.current|, [], files), w.backlog, cap)
  }

  function Append(w: Writer, line: string, cap: nat): Writer {
    if w.isOpen then Write(w, line, cap)
    else if |w.backlog| < BACKLOG_CAP then w.(backlog := w.backlog + [line])
    else w
  }

  // ---- Runs ----

  datatype Op = AppendLine(line: string) | Init

  function Step(w: Writer, op: Op, cap: nat): Writer {
    match op
    case AppendLine(line) => Append(w, line, cap)
    case Init => Open(w, cap)
  }

  function Run(w: Writer, ops: seq<Op>, cap: nat): Writer
    decreases |ops|
  {
    if ops == [] then w else Run(Step(w, ops[0], cap), ops[1..], cap)
  }

  /** The process starts with the log closed and whatever files the last one left. */
  function Fresh(files: Files): Writer { Writer(false, 0, [], files) }

  // ---- What should have reached the disk, said without files or rotation ----

  /** Every line once the log is open; before, the first lines up to the cap, held until then. */
  datatype Ledger = Ledger(isOpen: bool, held: seq<string>, written: seq<string>)

  function Post(l: Ledger, op: Op): Ledger {
    match op
    case AppendLine(line) =>
      if l.isOpen then l.(written := l.written + [line])
      else if |l.held| < BACKLOG_CAP then l.(held := l.held + [line])
      else l
    case Init => if l.isOpen then l else Ledger(true, [], l.written + l.held)
  }

  function Posts(l: Ledger, ops: seq<Op>): Ledger
    decreases |ops|
  {
    if ops == [] then l else Posts(Post(l, ops[0]), ops[1..])
  }

  predicate IsSuffix(s: string, t: string) { |s| <= |t| && t[|t| - |s|..] == s }

  function OnDisk(files: Files): string { files.backup + files.current }

  predicate NoLonger(lines: seq<string>, most: nat) {
    forall i :: 0 <= i < |lines| ==> |lines[i]| <= most
  }

  predicate LinesNoLonger(ops: seq<Op>, most: nat) {
    forall i :: 0 <= i < |ops| && ops[i].AppendLine? ==> |ops[i].line| <= most
  }

  /** The writer is in step with the ledger: `past` is what the disk held at the start, `most`
      bounds the lines. */
  ghost predicate InStep(w: Writer, l: Ledger, past: string, cap: nat, most: nat) {
    && w.isOpen == l.isOpen && w.backlog == l.held && |w.backlog| <= BACKLOG_CAP && NoLonger(w.backlog, most)
    && IsSuffix(OnDisk(w.files), past + Concat(l.written))
    && (w.isOpen ==> w.size == |w.files.current| <= cap && w.backlog == [])
  }

  /** No file is too big: the backup is at most a full log and one line. */
  predicate Small(files: Files, cap: nat, most: nat) {
    |files.current| <= cap && |files.backup| <= cap + most
  }

  lemma {:induction false} ConcatAppend(lines: seq<string>, line: string)
    ensures Concat(lines + [line]) == Concat(lines) + line
  {
    if lines == [] {
      assert [line][1..] == [] && lines + [line] == [line];
    } else {
      ConcatAppend(lines[1..], line);
      assert (lines + [line])[1..] == lines[1..] + [line];
    }
  }

  lemma WriteInStep(w: Writer, l: Ledger, line: string, past: string, cap: nat, most: nat)
    requires InStep(w, l, past, cap, most) && w.isOpen && |line| <= most
    ensures InStep(Write(w, line, cap), l.(written := l.written + [line]), past, cap, most)
    ensures Small(w.files, cap, most) ==> Small(Write(w, line, cap).files, cap, most)
  {
    ConcatAppend(l.written, line);
    var all, disk := past + Concat(l.written), OnDisk(w.files);
    assert past + Concat(l.written + [line]) == all + line;
    var k := |all| - |disk|;
    assert (all + line)[k..] == disk + line;
    assert disk + line == w.files.backup + (w.files.current + line);
    assert (all + line)[k + |w.files.backup|..] == w.files.current + line;
  }

  lemma {:induction false} WriteAllInStep(w: Writer, l: Ledger, lines: seq<string>, past: string, cap: nat, most: nat)
    requires InStep(w, l, past, cap, most) && w.isOpen && NoLonger(lines, most)
    ensures InStep(WriteAll(w, lines, cap), l.(written := l.written + lines), past, cap, most)
    ensures Small(w.files, cap, most) ==> Small(WriteAll(w, lines, cap).files, cap, most)
    decreases |lines|
  {
    if lines == [] {
      assert l.written + lines == l.written;
    } else {
      WriteInStep(w, l, lines[0], past, cap, most);
      WriteAllInStep(Write(w, lines[0], cap), l.(written := l.written + [lines[0]]), lines[1..], past, cap, most);
      assert l.written + [lines[0]] + lines[1..] == l.written + lines;
    }
  }

  lemma StepInStep(w: Writer, l: Ledger, op: Op, past: string, cap: nat, most: nat)
    requires InStep(w, l, past, cap, most) && (op.AppendLine? ==> |op.line| <= most)
    ensures InStep(Step(w, op, cap), Post(l, op), past, cap, most)
    ensures Small(w.files, cap, most) ==> Small(Step(w, op, cap).files, cap, most)
  {
    if op.AppendLine? && w.isOpen {
      WriteInStep(w, l, op.line, past, cap, most);
    } else if op.Init? && !w.isOpen {
      var files := if |w.files.current| > cap then Files("", w.files.current) else w.files;
      assert OnDisk(Files("", w.files.current)) == w.files.current;
      WriteAllInStep(Writer(true, |files.current|, [], files), Ledger(true, [], l.written), w.backlog, past, cap, most);
    }
  }

  lemma {:induction false} RunInStep(w: Writer, l: Ledger, ops: seq<Op>, past: string, cap: nat, most: nat)
    requires InStep(w, l, past, cap, most) && LinesNoLonger(ops, most)
    ensures InStep(Run(w, ops, cap), Posts(l, ops), past, cap, most)
    ensures Small(w.files, cap, most) ==> Small(Run(w, ops, cap).files, cap, most)
    decreases |ops|
  {
    if ops != [] {
      StepInStep(w, l, ops[0], past, cap, most);
      RunInStep(Step(w, ops[0], cap), Post(l, ops[0]), ops[1..], past, cap, most);
    }
  }

  /** Every run of the log, from any files: core.log.1 followed by core.log is a contiguous
      suffix of what was there and every accepted line in order; the size field is the length
      of core.log and within the cap; early lines wait in a backlog of at most 200. When no
      file was oversized at the start, both together never exceed two caps and a line. */
  lemma LogKeepsASuffix(files: Files, ops: seq<Op>, cap: nat, most: nat)
    requires LinesNoLonger(ops, most)
    ensures var w, l := Run(Fresh(files), ops, cap), Posts(Ledger(false, [], []), ops);
            && IsSuffix(OnDisk(w.files), OnDisk(files) + Concat(l.written))
            && (w.isOpen ==> w.size == |w.files.current| <= cap)
            && w.backlog == l.held && |w.backlog| <= BACKLOG_CAP
            && (Small(files, cap, most) ==> |OnDisk(w.files)| <= 2 * cap + most)
  {
    assert OnDisk(files) + Concat([]) == OnDisk(files);
    RunInStep(Fresh(files), Ledger(false, [], []), ops, OnDisk(files), cap, most);
  }

  // ---- When two caps are enough ----

  predicate WithinTwoCaps(files: Files, cap: nat) { |OnDisk(files)| <= 2 * cap }

  /** The line finds room: what is on disk with it stays within two caps, and so does the file
      that it overflows and goes out with. */
  predicate HasRoom(w: Writer, line: string, cap: nat) {
    if w.size + |line| <= cap then |w.files.backup| + w.size + |line| <= 2 * cap else w.size + |line| <= 2 * cap
  }

  predicate InSync(w: Writer, cap: nat) { w.isOpen && w.size == |w.files.current| <= cap }

  lemma WriteStaysInSync(w: Writer, line: string, cap: nat)
    requires InSync(w, cap)
    ensures InSync(Write(w, line, cap), cap)
    ensures WithinTwoCaps(Write(w, line, cap).files, cap) <==> HasRoom(w, line, cap)
  {
  }

  /** Two caps hold after every one of the lines. */
  predicate StaysWithinTwoCaps(w: Writer, lines: seq<string>, cap: nat)
    decreases |lines|
  {
    WithinTwoCaps(w.files, cap) && (lines != [] ==> StaysWithinTwoCaps(Write(w, lines[0], cap), lines[1..], cap))
  }

  predicate AllHaveRoom(w: Writer, lines: seq<string>, cap: nat)
    decreases |lines|
  {
    lines != [] ==> HasRoom(w, lines[0], cap) && AllHaveRoom(Write(w, lines[0], cap), lines[1..], cap)
  }

  lemma {:induction false} RoomIsWhatItTakes(w: Writer, lines: seq<string>, cap: nat)
    requires InSync(w, cap)
    ensures StaysWithinTwoCaps(w, lines, cap) <==> WithinTwoCaps(w.files, cap) && AllHaveRoom(w, lines, cap)
    decreases |lines|
  {
    if lines != [] {
      WriteStaysInSync(w, lines[0], cap);
      RoomIsWhatItTakes(Write(w, lines[0], cap), lines[1..], cap);
    }
  }

  /** The log as it is opened, before the backlog is written. */
  function Opened(files: Files, cap: nat): Writer {
    var rotated := if |files.current| > cap then Files("", files.current) else files;
    Writer(true, |rotated.current|, [], rotated)
  }

  /** A run that opens the log comes to writing the accepted lines one after the other. */
  ghost predicate Writes(w: Writer, l: Ledger, files: Files, cap: nat) {
    w == if l.isOpen then WriteAll(Opened(files, cap), l.written, cap) else Writer(false, 0, l.held, files)
  }

  lemma {:induction false} WriteAllAppend(w: Writer, lines: seq<string>, more: seq<string>, cap: nat)
    ensures WriteAll(w, lines + more, cap) == WriteAll(WriteAll(w, lines, cap), more, cap)
    decreases |lines|
  {
    if lines == [] {
      assert lines + more == more;
    } else {
      WriteAllAppend(Write(w, lines[0], cap), lines[1..], more, cap);
      assert (lines + more)[1..] == lines[1..] + more;
    }
  }

  lemma {:induction false} WriteAllStaysOpen(w: Writer, lines: seq<string>, cap: nat)
    requires w.isOpen
    ensures WriteAll(w, lines, cap).isOpen
    decreases |lines|
  {
    if lines != [] {
      WriteAllStaysOpen(Write(w, lines[0], cap), lines[1..], cap);
    }
  }

  lemma StepWrites(w: Writer, l: Ledger, op: Op, files: Files, cap: nat)
    requires Writes(w, l, files, cap) && (!l.isOpen ==> l.written == [])
    ensures Writes(Step(w, op, cap), Post(l, op), files, cap) && (!Post(l, op).isOpen ==> Post(l, op).written == [])
  {
    if l.isOpen {
      WriteAllStaysOpen(Opened(files, cap), l.written, cap);
      if op.AppendLine? {
        WriteAllAppend(Opened(files, cap), l.written, [op.line], cap);
        OneLine(w, op.line, cap);
      }
    } else {
      assert [] + l.held == l.held;
    }
  }

  lemma OneLine(w: Writer, line: string, cap: nat)
    ensures WriteAll(w, [line], cap) == Write(w, line, cap)
  {
    assert [line][1..] == [];
    assert WriteAll(Write(w, line, cap), [], cap) == Write(w, line, cap);
  }

  lemma {:induction false} RunWrites(w: Writer, l: Ledger, ops: seq<Op>, files: Files, cap: nat)
    requires Writes(w, l, files, cap) && (!l.isOpen ==> l.written == [])
    ensures Writes(Run(w, ops, cap), Posts(l, ops), files, cap)
    decreases |ops|
  {
    if ops != [] {
      StepWrites(w, l, ops[0], files, cap);
      RunWrites(Step(w, ops[0], cap), Post(l, ops[0]), ops[1..], files, cap);
    }
  }

  /** Every run that opens the log, from any files: two caps hold from the opening on, after each
      accepted line, exactly when they hold at the opening and every line finds room. */
  lemma TwoCapsExactly(files: Files, ops: seq<Op>, cap: nat)
    requires Posts(Ledger(false, [], []), ops).isOpen
    ensures var lines, w := Posts(Ledger(false, [], []), ops).written, Opened(files, cap);
            && Run(Fresh(files), ops, cap) == WriteAll(w, lines, cap)
            && (StaysWithinTwoCaps(w, lines, cap) <==> WithinTwoCaps(w.files, cap) && AllHaveRoom(w, lines, cap))
  {
    RunWrites(Fresh(files), Ledger(false, [], []), ops, files, cap);
    RoomIsWhatItTakes(Opened(files, cap), Posts(Ledger(false, [], []), ops).written, cap);
  }

  // ---- How far beyond two caps it can go ----

  function Text(n: nat): (s: string)
    ensures |s| == n
  {
    seq(n, _ => 'x')
  }

  /** That many lines of one byte. */
  function Bytes(n: nat): (lines: seq<string>)
    ensures |lines| == n && forall i :: 0 <= i < n ==> lines[i] == Text(1)
  {
    seq(n, _ => Text(1))
  }

  /** Fill the file, let the longest line go out with it, fill the file again. */
  function FullestLines(cap: nat, most: nat): seq<string> { Bytes(cap) + [Text(most)] + Bytes(cap) }

  lemma {:induction false} FillsUp(w: Writer, n: nat, cap: nat)
    requires InSync(w, cap) && w.size + n <= cap
    ensures var r := WriteAll(w, Bytes(n), cap);
            InSync(r, cap) && r.size == w.size + n && r.files.backup == w.files.backup
    decreases n
  {
    if n > 0 {
      assert Bytes(n)[0] == Text(1) && Bytes(n)[1..] == Bytes(n - 1);
      FillsUp(Write(w, Text(1), cap), n - 1, cap);
    }
  }

  lemma FullestIsReached(cap: nat, most: nat)
    requires most >= 1
    ensures |OnDisk(WriteAll(Opened(Files("", ""), cap), FullestLines(cap, most), cap).files)| == 2 * cap + most
  {
    var w := Opened(Files("", ""), cap);
    var full := WriteAll(w, Bytes(cap), cap);
    FillsUp(w, cap, cap);
    var rotated := Write(full, Text(most), cap);
    FillsUp(rotated, cap, cap);
    OneLine(full, Text(most), cap);
    WriteAllAppend(w, Bytes(cap), [Text(most)], cap);
    WriteAllAppend(w, Bytes(cap) + [Text(most)], Bytes(cap), cap);
  }

  function Appends(lines: seq<string>): (ops: seq<Op>)
    ensures |ops| == |lines|
  {
    seq(|lines|, i requires 0 <= i < |lines| => AppendLine(lines[i]))
  }

  lemma {:induction false} AppendsWrite(w: Writer, lines: seq<string>, cap: nat)
    requires w.isOpen
    ensures Run(w, Appends(lines), cap) == WriteAll(w, lines, cap)
    decreases |lines|
  {
    if lines != [] {
      assert Appends(lines)[1..] == Appends(lines[1..]);
      AppendsWrite(Write(w, lines[0], cap), lines[1..], cap);
    }
  }

  /** The run that reaches the bound, from an empty directory. */
  lemma TwoCapsAreExceeded(cap: nat, most: nat)
    requires most >= 1
    ensures var ops := [Init] + Appends(FullestLines(cap, most));
            LinesNoLonger(ops, most) && |OnDisk(Run(Fresh(Files("", "")), ops, cap).files)| == 2 * cap + most
  {
    var lines := FullestLines(cap, most);
    var ops := [Init] + Appends(lines);
    assert ops[1..] == Appends(lines);
    assert Step(Fresh(Files("", "")), Init, cap) == Opened(Files("", ""), cap);
    AppendsWrite(Opened(Files("", ""), cap), lines, cap);
    FullestIsReached(cap, most);
  }

  /** So two caps bound every run of lines of a given length only when the lines are empty. */
  lemma TwoCapsBoundOnlyEmptyLines(cap: nat, most: nat)
    ensures (forall ops :: LinesNoLonger(ops, most) ==> WithinTwoCaps(Run(Fresh(Files("", "")), ops, cap).files, cap))
            <==> most == 0
  {
    if most >= 1 {
      TwoCapsAreExceeded(cap, most);
      var ops := [Init] + Appends(FullestLines(cap, most));
      assert !WithinTwoCaps(Run(Fresh(Files("", "")), ops, cap).files, cap);
    } else {
      forall ops | LinesNoLonger(ops, most)
        ensures WithinTwoCaps(Run(Fresh(Files("", "")), ops, cap).files, cap)
      {
        LogKeepsASuffix(Files("", ""), ops, cap, most);
      }
    }
  }

  /** What is accepted before the log is opened: the first 200 lines, and no other. */
  lemma {:induction false} EarlyLinesAreTheFirst(lines: seq<string>)
    ensures Posts(Ledger(false, [], []), Appends(lines))
            == Ledger(false, if |lines| <= BACKLOG_CAP then lines else lines[..BACKLOG_CAP], [])
  {
    var ops := Appends(lines);
    if lines != [] {
      var n := |lines| - 1;
      EarlyLinesAreTheFirst(lines[..n]);
      var before := Appends(lines[..n]);
      assert ops == before + [AppendLine(lines[n])];
      PostsAppend(Ledger(false, [], []), before, AppendLine(lines[n]));
      assert lines == lines[..n] + [lines[n]];
    }
  }

  lemma {:induction false} PostsAppend(l: Ledger, ops: seq<Op>, op: Op)
    ensures Posts(l, ops + [op]) == Post(Posts(l, ops), op)
    decreases |ops|
  {
    if ops == [] {
      assert ops + [op] == [op] && [op][1..] == [];
    } else {
      PostsAppend(Post(l, ops[0]), ops[1..], op);
      assert (ops + [op])[1..] == ops[1..] + [op];
    }
  }

  // ---- The writer as the code writes it ----

  class CoreLogWriter {
    const cap: nat
    var isOpen: bool
    var size: nat
    var backlog: seq<string>
    // the directory
    var current: string
    var backup: string

    function State(): Writer
      reads this
    {
      Writer(isOpen, size, backlog, Files(current, backup))
    }

    constructor (cap: nat, files: Files)
      ensures this.cap == cap && State() == Fresh(files)
    {
      this.cap := cap;
      isOpen, size, backlog := false, 0, [];
      current, backup := files.current, files.backup;
    }

    method WriteLocked(line: string)
      requires isOpen
      modifies this
      ensures State() == Write(old(State()), line, cap)
    {
      current := current + line;
      size := size + |line|;
      if size <= cap {
        return;
      }
      isOpen := false;
      current, backup := "", current;
      isOpen := true;
      size := 0;
    }

    method InitCoreLog()
      modifies this
      ensures State() == Open(old(State()), cap)
    {
      if isOpen {
        return;
      }
      if |current| > cap {
        current, backup := "", current;
      }
      isOpen := true;
      size := |current|;
      var lines := backlog;
      backlog := [];
      ghost var begun := State();
      var i := 0;
      while i < |lines|
        invariant 0 <= i <= |lines| && isOpen
        invariant WriteAll(State(), lines[i..], cap) == WriteAll(begun, lines, cap)
      {
        assert lines[i..][0] == lines[i] && lines[i..][1..] == lines[i + 1..];
        WriteLocked(lines[i]);
        i := i + 1;
      }
    }

    method CoreLogAppend(line: string)
      modifies this
      ensures State() == Append(old(State()), line, cap)
    {
      if !isOpen {
        if |backlog| < BACKLOG_CAP {
          backlog := backlog + [line];
        }
        return;
      }
      WriteLocked(line);
    }
  }
}
