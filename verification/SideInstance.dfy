/**
 The bring-up race of a side-instance (runInstanceCore): a caller waits for its worker
 or for the bring-up context, whichever comes first, while the worker builds an instance
 with a start that cannot be cancelled. The two meet on an unbuffered channel, so a
 result is handed over only while the caller still waits.
 */
module SideInstance {
  import opened Common

  datatype Caller =
    | Waiting
    | Received(inst: bool)     // took the worker's result: its instance, or none
    | GaveUp                   // saw the context done first
    | Returned(got: bool)      // after the deferred cancel; got: an instance, not an error

  datatype Worker =
    | Preparing                // configuration built and checked
    | Starting                 // StartOrReloadServiceOptions, deaf to the context
    | Settling                 // service up; 250 ms or the context
    | Built(inst: bool)        // build returned; at the select
    | Delivered
    | Cleaning(inst: bool)     // took the context branch
    | Done

  /** `starts` and `closes` count the services started and closed. */
  datatype State = State(caller: Caller, worker: Worker, ctxDone: bool, starts: nat, closes: nat)

  const Start0: State := State(Waiting, Preparing, false, 0, 0)

  /** Who acts: the surroundings (deadline or parent), the caller, the worker, or both at once. */
  datatype Event =
    | Expire
    | Rendezvous
    | CallerGivesUp
    | CallerReturns
    | WorkerProceeds           // the step goes well
    | WorkerFails              // it does not: error, panic, or context done while settling
    | WorkerCleans             // the context branch of the worker's select

  function Exec(s: State, ev: Event): Option<State> {
    match ev
    case Expire => if s.ctxDone then None else Some(s.(ctxDone := true))
    case Rendezvous =>
      if s.caller.Waiting? && s.worker.Built?
      then Some(s.(caller := Received(s.worker.inst), worker := Delivered)) else None
    case CallerGivesUp =>
      if s.caller.Waiting? && s.ctxDone then Some(s.(caller := GaveUp)) else None
    case CallerReturns =>  // defer cancel()
      (match s.caller
       case Received(i) => Some(s.(caller := Returned(i), ctxDone := true))
       case GaveUp => Some(s.(caller := Returned(false), ctxDone := true))
       case _ => None)
    case WorkerProceeds =>
      (match s.worker
       case Preparing => Some(s.(worker := Starting))
       case Starting => Some(s.(worker := Settling, starts := s.starts + 1))
       case Settling => Some(s.(worker := Built(true)))
       case Cleaning(i) => Some(s.(worker := Done, closes := s.closes + if i then 1 else 0))
       case Delivered => Some(s.(worker := Done))
       case _ => None)
    case WorkerFails =>
      (match s.worker
       case Preparing => Some(s.(worker := Built(false)))
       case Starting => Some(s.(worker := Built(false)))
       case Settling =>
         if s.ctxDone then Some(s.(worker := Built(false), closes := s.closes + 1)) else None
       case _ => None)
    case WorkerCleans =>
      if s.worker.Built? && s.ctxDone then Some(s.(worker := Cleaning(s.worker.inst))) else None
  }

  ghost predicate Next(s: State, s': State) { exists ev :: Exec(s, ev) == Some(s') }

  ghost predicate IsRun(run: seq<State>) {
    |run| > 0 && run[0] == Start0 && forall i :: 0 <= i < |run| - 1 ==> Next(run[i], run[i + 1])
  }

  predicate HasInstance(c: Caller) { (c.Received? && c.inst) || (c.Returned? && c.got) }

  /** The service is the worker's to close. */
  predicate WorkerOwns(w: Worker) { w.Settling? || ((w.Built? || w.Cleaning?) && w.inst) }

  /** One service at most is ever started, it is closed at most once, and while it is open
      exactly one side owns it. */
  predicate Safe(s: State) {
    && s.closes <= s.starts <= 1
    && (s.starts == 0 ==> !HasInstance(s.caller) && !WorkerOwns(s.worker))
    && !(HasInstance(s.caller) && WorkerOwns(s.worker))
    && (s.starts == 1 ==> (s.closes == 0 <==> HasInstance(s.caller) || WorkerOwns(s.worker)))
    && (s.starts == 1 ==> !s.worker.Preparing? && !s.worker.Starting?)
    && (HasInstance(s.caller) ==> s.worker.Delivered? || s.worker.Done?)
    // a side that left the other behind did so with the context done
    && (s.caller.Returned? || s.caller.GaveUp? ==> s.ctxDone)
    && (s.caller.Waiting? ==> !s.worker.Delivered?)
    && (s.caller.Waiting? && (s.worker.Cleaning? || s.worker.Done?) ==> s.ctxDone)
  }

  lemma StepKeepsSafe(s: State, ev: Event)
    requires Safe(s) && Exec(s, ev).Some?
    ensures Safe(Exec(s, ev).value)
  {
  }

  lemma {:induction false} RunsAreSafe(run: seq<State>)
    requires IsRun(run)
    ensures Safe(run[|run| - 1])
  {
    var n := |run| - 1;
    if n > 0 {
      RunsAreSafe(run[..n]);
      var ev :| Exec(run[n - 1], ev) == Some(run[n]);
      StepKeepsSafe(run[n - 1], ev);
    }
  }

  /** Once both sides are through, the service that was started is the caller's and open, or
      the caller got an error and it was closed exactly once. */
  lemma ExactlyOneOwner(run: seq<State>)
    requires IsRun(run)
    requires var s := run[|run| - 1]; s.caller.Returned? && s.worker.Done?
    ensures var s := run[|run| - 1];
            if s.caller.got then s.starts == 1 && s.closes == 0 else s.closes == s.starts
  {
    RunsAreSafe(run);
  }

  /** A caller that gave up can still win nothing: after the timeout the worker closes what it
      ends up with, in whatever order the rest happens. */
  lemma {:induction false} GivingUpIsFinal(run: seq<State>, i: nat, j: nat)
    requires IsRun(run) && i <= j < |run|
    requires run[i].caller.GaveUp?
    ensures !HasInstance(run[j].caller) && (run[j].worker.Done? ==> run[j].closes == run[j].starts)
  {
    GivenUpStays(run, i, j);
    RunsAreSafe(run[..j + 1]);
  }

  predicate GivenUp(c: Caller) { c.GaveUp? || c == Returned(false) }

  lemma {:induction false} GivenUpStays(run: seq<State>, i: nat, j: nat)
    requires IsRun(run) && i <= j < |run|
    requires run[i].caller.GaveUp?
    ensures GivenUp(run[j].caller)
  {
    if i < j {
      GivenUpStays(run, i, j - 1);
      assert Next(run[j - 1], run[j]);
    }
  }

  // ---- The worker reaches its end ----

  /** Steps left to the two sides once build has returned. */
  function Remaining(s: State): nat {
    CallerSteps(s.caller) + WorkerSteps(s.worker)
  }

  function CallerSteps(c: Caller): nat {
    match c
    case Waiting => 2
    case Received(_) => 1
    case GaveUp => 1
    case Returned(_) => 0
  }

  function WorkerSteps(w: Worker): nat {
    match w
    case Preparing => 5
    case Starting => 4
    case Settling => 3
    case Built(_) => 2
    case Delivered => 1
    case Cleaning(_) => 1
    case Done => 0
  }

  /** Every step of either side uses up one of the remaining steps; the surroundings add none. */
  lemma StepsRunOut(s: State, ev: Event)
    requires Exec(s, ev).Some?
    ensures var left := Remaining(Exec(s, ev).value); left < Remaining(s) || (ev == Expire && left == Remaining(s))
  {
  }

  /** Once build has returned there is always a step for one of the two sides to take until
      both are through: the worker needs neither the deadline nor the parent to get out. */
  lemma NeverStuck(run: seq<State>)
    requires IsRun(run)
    requires var s := run[|run| - 1];
             !s.worker.Preparing? && !s.worker.Starting? && !s.worker.Settling?
    ensures var s := run[|run| - 1];
            (s.worker.Done? && s.caller.Returned?) || exists ev :: ev != Expire && Exec(s, ev).Some?
  {
    RunsAreSafe(run);
    var s := run[|run| - 1];
    if s.caller.Received? || s.caller.GaveUp? {
      assert Exec(s, CallerReturns).Some?;
    } else if s.worker.Delivered? || s.worker.Cleaning? {
      assert Exec(s, WorkerProceeds).Some?;
    } else if s.worker.Built? {
      assert Exec(s, Rendezvous).Some? || Exec(s, WorkerCleans).Some?;
    } else if s.caller.Waiting? {
      assert Exec(s, CallerGivesUp).Some?;
    }
  }
}
