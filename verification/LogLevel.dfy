/**
 The log level that survives a restart. Settings requests are merged over the options in
 memory and stored; a request that only turns the log up is kept out of the store.

 Of the options only the level matters here; the other fields are a map that a request
 updates key by key. The store holds one row.
 */
module LogLevel {
  import opened Common

  type Level = string

  const DEFAULT_LEVEL: Level := "debug"

  datatype Options = Options(level: Level, rest: map<string, string>)

  /** The JSON of a request: nothing, something that does not parse, or fields. */
  datatype Request = Empty | Malformed | Fields(level: Option<Level>, rest: map<string, string>)

  /** `persisted` "": not known yet in this process. */
  datatype State = State(options: Option<Options>, persisted: Level, stored: Option<Options>)

  function DefaultOptions(): Options { Options(DEFAULT_LEVEL, map[]) }

  function Merge(o: Options, r: Request): Options {
    match r
    case Fields(l, rest) => Options(if l.Some? then l.value else o.level, o.rest + rest)
    case _ => o
  }

  predicate Verbose(l: Level) { l == "debug" || l == "trace" }

  /** The filter of the log tab: a level and nothing else. */
  predicate LevelOnly(r: Request) { r.Fields? && r.level.Some? && r.rest == map[] }

  predicate VerboseFilter(r: Request) { LevelOnly(r) && Verbose(r.level.value) }

  /** The request reaches the store. */
  predicate IsStored(r: Request) { r.Fields? && !VerboseFilter(r) }

  function CurrentOptions(s: State): Options {
    match s.options
    case None => DefaultOptions()
    case Some(o) => o
  }

  function Known(s: State): State {
    if s.persisted == "" then s.(persisted := CurrentOptions(s).level) else s
  }

  /** ChangeInhiveSettings on behalf of the app. */
  function Change(s: State, r: Request): State {
    var k := Known(s);
    if r.Malformed? then k
    else
      var o := Merge(CurrentOptions(s), r);
      if !IsStored(r) then k.(options := Some(o))
      else
        var level := if r.level.Some? then o.level else k.persisted;
        State(Some(o), level, Some(o.(level := level)))
  }

  /** Setup: the stored row, or nothing, is merged, and its level is the persisted one. */
  function Setup(s: State): State {
    var o := match s.stored
             case None => CurrentOptions(s)
             case Some(row) => Options(row.level, CurrentOptions(s).rest + row.rest);
    State(Some(o), o.level, s.stored)
  }

  // ---- Runs ----

  datatype Op = DoSetup | DoChange(r: Request)

  function Step(s: State, op: Op): State {
    match op
    case DoSetup => Setup(s)
    case DoChange(r) => Change(s, r)
  }

  function Run(s: State, ops: seq<Op>): State
    decreases |ops|
  {
    if ops == [] then s else Run(Step(s, ops[0]), ops[1..])
  }

  /** Every level mentioned is one: not the empty string. */
  predicate Valid(op: Op) { op.DoChange? && op.r.Fields? && op.r.level.Some? ==> op.r.level.value != "" }

  predicate AllValid(ops: seq<Op>) { forall i :: 0 <= i < |ops| ==> Valid(ops[i]) }

  predicate ValidRow(stored: Option<Options>) { stored.Some? ==> stored.value.level != "" }

  /** The level in the store is the level this process takes for the stored one. */
  predicate Agree(s: State) { s.stored.Some? ==> s.stored.value.level == s.persisted }

  predicate Sane(s: State) {
    ValidRow(s.stored) && (s.options.Some? ==> s.options.value.level != "")
  }

  /** The operation writes the store or reads it. */
  predicate Settles(op: Op) {
    || op.DoSetup?
    || (op.r.Fields? && !(op.r.rest == map[] && (op.r.level == Some("debug") || op.r.level == Some("trace"))))
  }

  lemma StepKeeps(s: State, op: Op)
    requires Sane(s) && Valid(op)
    ensures Sane(Step(s, op)) && Step(s, op).persisted != ""
    ensures Settles(op) || (s.persisted != "" && Agree(s)) ==> Agree(Step(s, op))
    ensures !Settles(op) && s.persisted != "" ==>
              Step(s, op).stored == s.stored && Step(s, op).persisted == s.persisted
  {
  }

  lemma {:induction false} AgreementLasts(s: State, ops: seq<Op>)
    requires Sane(s) && AllValid(ops) && s.persisted != "" && Agree(s)
    ensures Agree(Run(s, ops))
    decreases |ops|
  {
    if ops != [] {
      StepKeeps(s, ops[0]);
      AgreementLasts(Step(s, ops[0]), ops[1..]);
    }
  }

  /** From a process start on, for any row the database holds: the two levels agree exactly
      when there was no row, or it happens to hold the default level, or some operation so far
      has read or written the store. So they always agree once Setup has run. */
  lemma LevelsAgreeExactly(row: Option<Options>, ops: seq<Op>)
    requires ValidRow(row) && AllValid(ops) && ops != []
    ensures Agree(Run(State(None, "", row), ops))
            <==> row == None || row.value.level == "debug" || exists i :: 0 <= i < |ops| && Settles(ops[i])
  {
    var s := State(None, "", row);
    var t := Step(s, ops[0]);
    StepKeeps(s, ops[0]);
    if Settles(ops[0]) || row == None {
      AgreementLasts(t, ops[1..]);
    } else {
      assert t.stored == row && t.persisted == DEFAULT_LEVEL;
      UnsettledAgreement(t, ops[1..]);
      assert (exists i :: 0 <= i < |ops[1..]| && Settles(ops[1..][i]))
             <==> (exists i :: 1 <= i < |ops| && Settles(ops[i])) by {
        if i :| 1 <= i < |ops| && Settles(ops[i]) {
          assert ops[1..][i - 1] == ops[i];
        }
      }
    }
  }

  lemma {:induction false} UnsettledAgreement(s: State, ops: seq<Op>)
    requires Sane(s) && AllValid(ops) && s.persisted != ""
    ensures Agree(Run(s, ops)) <==> Agree(s) || exists i :: 0 <= i < |ops| && Settles(ops[i])
    decreases |ops|
  {
    if ops != [] {
      var t := Step(s, ops[0]);
      StepKeeps(s, ops[0]);
      if Settles(ops[0]) {
        AgreementLasts(t, ops[1..]);
      } else {
        UnsettledAgreement(t, ops[1..]);
        if i :| 1 <= i < |ops| && Settles(ops[i]) {
          assert ops[1..][i - 1] == ops[i];
        }
      }
    }
  }

  /** Requests can arrive before Setup has read the row: the server is listening by then. */
  lemma BeforeSetupTheyMayDiffer()
    ensures var row := Some(Options("warn", map[]));
            !Agree(Run(State(None, "", row), [DoChange(Fields(Some("trace"), map[]))]))
  {
  }

  /** Turning the log up changes the level in memory and neither of the other two; any other
      stored request writes its own level, or, when it brings none, the persisted one. */
  lemma VerboseStaysInMemory(s: State, r: Request)
    requires s.persisted != "" && r.Fields?
    ensures var t := Change(s, r);
            var before := if s.options.Some? then s.options.value else Options("debug", map[]);
            var level := if r.level.Some? then r.level.value else before.level;
            var onlyVerbose := r.rest == map[] && (r.level == Some("debug") || r.level == Some("trace"));
            && t.options == Some(Options(level, before.rest + r.rest))
            && (onlyVerbose ==> t.persisted == s.persisted && t.stored == s.stored)
            && (!onlyVerbose ==>
                  && t.persisted == (if r.level.Some? then r.level.value else s.persisted)
                  && t.stored == Some(Options(t.persisted, before.rest + r.rest)))
  {
  }

  class CoreSettings {
    var options: Option<Options>
    var persisted: Level
    var stored: Option<Options>

    function Fields(): State
      reads this
    {
      State(options, persisted, stored)
    }

    constructor (row: Option<Options>)
      ensures Fields() == State(None, "", row)
    {
      options, persisted, stored := None, "", row;
    }

    method ChangeInhiveSettings(r: Request, insert: bool) returns (ok: bool)
      modifies this
      ensures ok <==> !r.Malformed?
      ensures insert ==> Fields() == Change(old(Fields()), r)
      ensures !insert && ok ==>
                Fields() == State(Some(Merge(CurrentOptions(old(Fields())), r)),
                                  Merge(CurrentOptions(old(Fields())), r).level, old(stored))
    {
      var opts := if options.Some? then options.value else DefaultOptions();
      if persisted == "" {
        persisted := opts.level;
      }
      var levelInRequest := r.Fields? && r.level.Some?;
      var logLevelOnly := levelInRequest && r.rest == map[];
      if r.Malformed? {
        return false;
      }
      opts := Merge(opts, r);
      options := Some(opts);
      if !insert {
        persisted := opts.level;
      }
      var verboseFilter := logLevelOnly && (opts.level == "debug" || opts.level == "trace");
      if insert && r != Request.Empty && !verboseFilter {
        if levelInRequest {
          persisted := opts.level;
        }
        stored := Some(opts.(level := persisted));
      }
      return true;
    }

    method LoadSettings()
      requires ValidRow(stored)
      modifies this
      ensures Fields() == Setup(old(Fields()))
    {
      var r := match stored
               case None => Request.Empty
               case Some(row) => Request.Fields(Some(row.level), row.rest);
      var ok := ChangeInhiveSettings(r, false);
    }
  }
}
