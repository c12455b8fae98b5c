/**
 The Start/Stop/abortStart protocol of the core.

 One lock (`static.lock`) is held for a whole StartService or Stop call; the cancel
 handle of a start in progress is guarded by its own small mutex, so that Stop can
 fire it before it queues for the lock. The protocol is a transition system over any
 number of threads, one step per lock, handle or state action; the critical sections
 of the handle mutex never block and are single steps.

 A service is identified by the context it was started under: every start makes a
 fresh one.
 */
module Lifecycle {
  import opened Common

  datatype CoreState = STOPPED | STARTING | STARTED | STOPPING

  type Ctx = nat

  /** The fields of InhiveInstance that the protocol touches, and the contexts made so far. */
  datatype Shared = Shared(
    core: CoreState,
    started: Option<Ctx>,       // static.StartedService
    startCancel: Option<Ctx>,   // static.startCancel
    cancelled: set<Ctx>,        // contexts whose cancel function has run
    live: set<Ctx>,             // services running: NewService returned, CloseService has not
    nextCtx: Ctx
  )

  const Init: Shared := Shared(STOPPED, None, None, {}, {}, 0)

  // ---- The guarded actions, as functions of the shared fields ----

  /** context.WithCancel followed by setStartCancel, which cancels a handle left behind. */
  function PublishCancel(sh: Shared): Shared {
    sh.(startCancel := Some(sh.nextCtx),
        nextCtx := sh.nextCtx + 1,
        cancelled := match sh.startCancel
                     case None => sh.cancelled
                     case Some(c) => sh.cancelled + {c})
  }

  function FireCancel(sh: Shared, handle: Option<Ctx>): Shared {
    match handle
    case None => sh
    case Some(c) => sh.(cancelled := sh.cancelled + {c})
  }

  /** CloseService and Close of the stored service, then StartedService = nil. */
  function DropService(sh: Shared): Shared {
    match sh.started
    case None => sh
    case Some(c) => sh.(live := sh.live - {c}, started := None)
  }

  // ---- Threads ----

  /** Where a thread is. `handle` is the cancel a Stop read, `seen` how many contexts
      existed at that moment; `armed` says that clearStartCancel was deferred. */
  datatype Pc =
    | Idle
    | StartLock
    | StartCheck
    | StartBuild
    | StartPublish
    | StartNew(ctx: Ctx)
    | StartStore(ctx: Ctx)
    | StartDone
    | FailStatus(armed: bool)
    | FailClose(armed: bool)
    | FailStopped(armed: bool)
    | StartClear
    | StopRead
    | StopFire(handle: Option<Ctx>, seen: Ctx)
    | StopLock(handle: Option<Ctx>, seen: Ctx)
    | StopEnter(handle: Option<Ctx>)
    | StopClose(handle: Option<Ctx>)
    | Unlock

  predicate HoldsLock(pc: Pc) {
    !pc.Idle? && !pc.StartLock? && !pc.StopRead? && !pc.StopFire? && !pc.StopLock?
  }

  datatype State = State(sh: Shared, lock: Option<nat>, pcs: map<nat, Pc>)

  function PcOf(s: State, t: nat): Pc { if t in s.pcs then s.pcs[t] else Idle }

  function Goto(s: State, t: nat, pc: Pc): State { s.(pcs := s.pcs[t := pc]) }

  function WithShared(s: State, t: nat, sh: Shared, pc: Pc): State {
    s.(sh := sh, pcs := s.pcs[t := pc])
  }

  /** Calls, and the two outcomes of a step that can fail. */
  datatype Event = CallStart | CallStop | Proceed | Fail

  /** The state after thread `t` takes step `ev`, or None when it cannot. */
  function Exec(s: State, t: nat, ev: Event): Option<State> {
    var sh := s.sh;
    match PcOf(s, t)
    case Idle =>
      (match ev
       case CallStart => Some(Goto(s, t, StartLock))
       case CallStop => Some(Goto(s, t, StopRead))
       case _ => None)
    case StartLock =>
      if ev == Proceed && s.lock == None then Some(Goto(s, t, StartCheck).(lock := Some(t))) else None
    case StartCheck =>
      if ev != Proceed then None
      else if sh.core != STOPPED then Some(Goto(s, t, Unlock))
      else Some(WithShared(s, t, sh.(core := STARTING), StartBuild))
    case StartBuild =>  // load the request, build and save the configuration
      (match ev
       case Proceed => Some(Goto(s, t, StartPublish))
       case Fail => Some(Goto(s, t, FailStatus(false)))
       case _ => None)
    case StartPublish =>
      if ev == Proceed then Some(WithShared(s, t, PublishCancel(sh), StartNew(sh.nextCtx))) else None
    case StartNew(c) =>  // NewService closes what it built when it fails
      (match ev
       case Proceed => Some(WithShared(s, t, sh.(live := sh.live + {c}), StartStore(c)))
       case Fail => Some(Goto(s, t, FailStatus(true)))
       case _ => None)
    case StartStore(c) =>
      if ev == Proceed then Some(WithShared(s, t, sh.(started := Some(c)), StartDone)) else None
    case StartDone =>
      if ev == Proceed then Some(WithShared(s, t, sh.(core := STARTED), StartClear)) else None
    case FailStatus(armed) =>  // errorWrapper: StopAndAlert sets the status first
      if ev == Proceed then Some(WithShared(s, t, sh.(core := STOPPED), FailClose(armed))) else None
    case FailClose(armed) =>
      if ev == Proceed then Some(WithShared(s, t, DropService(sh), FailStopped(armed))) else None
    case FailStopped(armed) =>
      if ev == Proceed
      then Some(WithShared(s, t, sh.(core := STOPPED), if armed then StartClear else Unlock))
      else None
    case StartClear =>
      if ev == Proceed then Some(WithShared(s, t, sh.(startCancel := None), Unlock)) else None
    case StopRead =>
      if ev == Proceed then Some(Goto(s, t, StopFire(sh.startCancel, sh.nextCtx))) else None
    case StopFire(h, seen) =>
      if ev == Proceed then Some(WithShared(s, t, FireCancel(sh, h), StopLock(h, seen))) else None
    case StopLock(h, _) =>
      if ev == Proceed && s.lock == None then Some(Goto(s, t, StopEnter(h)).(lock := Some(t))) else None
    case StopEnter(h) =>
      if ev == Proceed then Some(WithShared(s, t, sh.(core := STOPPING), StopClose(h))) else None
    case StopClose(_) =>  // Fail: CloseService returned an error; the service is dropped all the same
      (match ev
       case Proceed => Some(WithShared(s, t, DropService(sh).(core := STOPPED), Unlock))
       case Fail =>
         if sh.started == None then None
         else Some(WithShared(s, t, DropService(sh), FailStatus(false)))
       case _ => None)
    case Unlock =>
      if ev == Proceed then Some(Goto(s, t, Idle).(lock := None)) else None
  }

  ghost predicate Next(s: State, s': State) {
    exists t: nat, ev :: Exec(s, t, ev) == Some(s')
  }

  const Start0: State := State(Init, None, map[])

  /** A run: it starts with nobody inside and every state follows from the one before. */
  ghost predicate IsRun(run: seq<State>) { IsPath(run) && run[0] == Start0 }

  ghost predicate IsPath(run: seq<State>) {
    |run| > 0 && forall i :: 0 <= i < |run| - 1 ==> Next(run[i], run[i + 1])
  }

  // ---- What every run keeps ----

  /** Thread `t` is a Stop that fired the cancel of `c` and has not dropped the service yet. */
  predicate OwesStop(s: State, t: nat, c: Ctx) {
    var pc := PcOf(s, t);
    (pc.StopLock? || pc.StopEnter? || pc.StopClose?) && pc.handle == Some(c)
  }

  /** The safety property of the protocol. */
  ghost predicate Safe(s: State) {
    // the lock has at most one owner
    && (forall t: nat, u: nat :: HoldsLock(PcOf(s, t)) && HoldsLock(PcOf(s, u)) ==> t == u)
    // at most one service is live
    && (forall c, d :: c in s.sh.live && d in s.sh.live ==> c == d)
    // between calls the state is STOPPED or STARTED, and STARTED exactly with a live service
    && (s.lock == None ==>
          && s.sh.core in {STOPPED, STARTED}
          && (s.sh.core == STARTED <==> s.sh.live != {})
          && (forall c :: c in s.sh.live <==> s.sh.started == Some(c)))
    // a stored cancel handle means a start in progress
    && (s.sh.startCancel.Some? ==>
          exists t: nat :: s.lock == Some(t) && InStart(PcOf(s, t)))
    // a live service whose context is cancelled is about to be stopped by who cancelled it
    && (forall c :: c in s.sh.live && c in s.sh.cancelled ==> exists t: nat :: OwesStop(s, t, c))
  }

  predicate InStart(pc: Pc) {
    pc.StartNew? || pc.StartStore? || pc.StartDone? || pc.StartClear?
    || (pc.FailStatus? && pc.armed) || (pc.FailClose? && pc.armed) || (pc.FailStopped? && pc.armed)
  }

  /** What the shared fields look like when the lock owner is at `pc`. */
  predicate OwnerView(sh: Shared, pc: Pc) {
    match pc
    case StartCheck => Quiet(sh)
    case StartBuild => sh.core == STARTING && Empty(sh) && sh.startCancel == None
    case StartPublish => sh.core == STARTING && Empty(sh) && sh.startCancel == None
    case StartNew(c) => sh.core == STARTING && Empty(sh) && sh.startCancel == Some(c)
    case StartStore(c) =>
      sh.core == STARTING && sh.started == None && sh.live == {c} && sh.startCancel == Some(c)
    case StartDone => sh.core == STARTING && Running(sh) && sh.startCancel == sh.started
    case FailStatus(armed) => Empty(sh) && sh.startCancel.Some? == armed
    case FailClose(armed) => sh.core == STOPPED && Empty(sh) && sh.startCancel.Some? == armed
    case FailStopped(armed) => sh.core == STOPPED && Empty(sh) && sh.startCancel.Some? == armed
    case StartClear => sh.startCancel.Some? && Settled(sh)
    case StopEnter(_) => Quiet(sh)
    case StopClose(_) => sh.core == STOPPING && sh.startCancel == None && (Empty(sh) || Running(sh))
    case Unlock => Quiet(sh)
    case _ => true
  }

  predicate Empty(sh: Shared) { sh.started == None && sh.live == {} }

  predicate Running(sh: Shared) { sh.started.Some? && sh.live == {sh.started.value} }

  predicate Settled(sh: Shared) { (sh.core == STOPPED && Empty(sh)) || (sh.core == STARTED && Running(sh)) }

  predicate Quiet(sh: Shared) { Settled(sh) && sh.startCancel == None }

  /** The inductive invariant. */
  ghost predicate Inv(s: State) {
    Mutex(s) && View(s) && Bounds(s) && (forall t: nat :: Reading(s, PcOf(s, t))) && Debts(s)
  }

  ghost predicate Mutex(s: State) {
    forall t: nat :: HoldsLock(PcOf(s, t)) <==> s.lock == Some(t)
  }

  predicate View(s: State) {
    match s.lock
    case None => Quiet(s.sh)
    case Some(t) => OwnerView(s.sh, PcOf(s, t))
  }

  ghost predicate Bounds(s: State) {
    forall c :: c in s.sh.live || c in s.sh.cancelled || s.sh.startCancel == Some(c) ==> c < s.sh.nextCtx
  }

  /** Running, or being started, on a cancelled context. */
  predicate AtRisk(sh: Shared, c: Ctx) { c in sh.cancelled && (c in sh.live || sh.startCancel == Some(c)) }

  ghost predicate Debts(s: State) {
    forall c :: AtRisk(s.sh, c) ==> exists t: nat :: OwesStop(s, t, c)
  }

  /** What a Stop that is still outside the lock knows about the handle it read. */
  predicate Reading(s: State, pc: Pc) {
    (pc.StopFire? || pc.StopLock? ==>
       && pc.seen <= s.sh.nextCtx
       && (pc.handle.Some? ==> pc.handle.value < pc.seen)
       && (s.sh.startCancel.Some? ==>
             (pc.handle == s.sh.startCancel <==> s.sh.startCancel.value < pc.seen)))
    && (pc.StopLock? && pc.handle.Some? ==> pc.handle.value in s.sh.cancelled)
  }

  lemma StepKeepsMutex(s: State, t: nat, ev: Event)
    requires Mutex(s) && Exec(s, t, ev).Some?
    ensures Mutex(Exec(s, t, ev).value)
  {
    var s' := Exec(s, t, ev).value;
    assert HoldsLock(PcOf(s, t)) <==> s.lock == Some(t);
    forall u: nat
      ensures HoldsLock(PcOf(s', u)) <==> s'.lock == Some(u)
    {
      assert u != t ==> PcOf(s', u) == PcOf(s, u);
      assert HoldsLock(PcOf(s, u)) <==> s.lock == Some(u);
    }
  }

  lemma StepKeepsView(s: State, t: nat, ev: Event)
    requires Mutex(s) && View(s) && Exec(s, t, ev).Some?
    ensures View(Exec(s, t, ev).value)
  {
    var s' := Exec(s, t, ev).value;
    var pc := PcOf(s, t);
    assert HoldsLock(pc) <==> s.lock == Some(t);
    if !HoldsLock(pc) {
      // outside the lock a thread only fires a cancel, reads, or takes the free lock
      assert s'.sh == s.sh.(cancelled := s'.sh.cancelled);
      assert s.lock.Some? ==> s'.lock == s.lock && PcOf(s', s.lock.value) == PcOf(s, s.lock.value);
    } else if pc != Unlock {
      assert s'.lock == Some(t);
      OwnerStepKeepsView(s, t, ev);
    }
  }

  lemma OwnerStepKeepsView(s: State, t: nat, ev: Event)
    requires HoldsLock(PcOf(s, t)) && PcOf(s, t) != Unlock
    requires OwnerView(s.sh, PcOf(s, t)) && Exec(s, t, ev).Some?
    ensures OwnerView(Exec(s, t, ev).value.sh, PcOf(Exec(s, t, ev).value, t))
  {
  }

  /** The owner of the lock sees the shared fields as its place in the code promises. */
  predicate Sees(s: State, t: nat) { HoldsLock(PcOf(s, t)) ==> OwnerView(s.sh, PcOf(s, t)) }

  lemma OwnerSees(s: State, t: nat)
    requires Mutex(s) && View(s)
    ensures Sees(s, t)
  {
    assert HoldsLock(PcOf(s, t)) <==> s.lock == Some(t);
  }

  /** Contexts are never handed out twice and never revived, and a handle that appears is new. */
  lemma SharedGrows(s: State, t: nat, ev: Event)
    requires Exec(s, t, ev).Some?
    ensures var sh, sh' := s.sh, Exec(s, t, ev).value.sh;
            && sh.nextCtx <= sh'.nextCtx && sh.cancelled <= sh'.cancelled
            && sh'.startCancel in {sh.startCancel, None, Some(sh.nextCtx)}
    ensures forall u: nat :: u != t ==> PcOf(Exec(s, t, ev).value, u) == PcOf(s, u)
  {
  }

  lemma StepKeepsReading(s: State, t: nat, ev: Event, u: nat)
    requires Bounds(s) && Reading(s, PcOf(s, u)) && Exec(s, t, ev).Some?
    ensures Reading(Exec(s, t, ev).value, PcOf(Exec(s, t, ev).value, u))
  {
    if u != t {
      SharedGrows(s, t, ev);
    } else if PcOf(s, t).StopRead? || PcOf(s, t).StopFire? {
    } else {
      assert !Exec(s, t, ev).value.pcs[t].StopFire? && !Exec(s, t, ev).value.pcs[t].StopLock?;
    }
  }

  lemma StepKeepsBounds(s: State, t: nat, ev: Event)
    requires Sees(s, t) && Bounds(s) && Reading(s, PcOf(s, t)) && Exec(s, t, ev).Some?
    ensures Bounds(Exec(s, t, ev).value)
  {
  }

  /** A context at risk was so before the step, unless the step fired its cancel. */
  lemma RiskIsOld(s: State, t: nat, ev: Event, c: Ctx)
    requires Sees(s, t) && Bounds(s) && Exec(s, t, ev).Some? && AtRisk(Exec(s, t, ev).value.sh, c)
    requires PcOf(s, t).StopFire? ==> PcOf(s, t).handle != Some(c)
    ensures AtRisk(s.sh, c)
  {
  }

  lemma DebtStays(s: State, t: nat, ev: Event, c: Ctx, u: nat)
    requires Sees(s, t) && Exec(s, t, ev).Some? && AtRisk(Exec(s, t, ev).value.sh, c) && OwesStop(s, u, c)
    ensures OwesStop(Exec(s, t, ev).value, u, c)
  {
    if u != t {
      SharedGrows(s, t, ev);
    }
  }

  /** A debt is created by the Stop that fires, and kept until that Stop drops the service. */
  lemma StepKeepsDebt(s: State, t: nat, ev: Event, c: Ctx)
    requires Sees(s, t) && Bounds(s) && Debts(s) && Exec(s, t, ev).Some?
    requires AtRisk(Exec(s, t, ev).value.sh, c)
    ensures exists u: nat :: OwesStop(Exec(s, t, ev).value, u, c)
  {
    if PcOf(s, t).StopFire? && PcOf(s, t).handle == Some(c) {
      assert OwesStop(Exec(s, t, ev).value, t, c);
    } else {
      RiskIsOld(s, t, ev, c);
      var u: nat :| OwesStop(s, u, c);
      DebtStays(s, t, ev, c, u);
    }
  }

  lemma StepKeepsInv(s: State, t: nat, ev: Event)
    requires Inv(s) && Exec(s, t, ev).Some?
    ensures Inv(Exec(s, t, ev).value)
  {
    var s' := Exec(s, t, ev).value;
    StepKeepsMutex(s, t, ev);
    StepKeepsView(s, t, ev);
    OwnerSees(s, t);
    StepKeepsBounds(s, t, ev);
    forall u: nat
      ensures Reading(s', PcOf(s', u))
    {
      StepKeepsReading(s, t, ev, u);
    }
    forall c | AtRisk(s'.sh, c)
      ensures exists u: nat :: OwesStop(s', u, c)
    {
      StepKeepsDebt(s, t, ev, c);
    }
  }

  lemma InvIsSafe(s: State)
    requires Inv(s)
    ensures Safe(s)
  {
    if s.sh.startCancel.Some? {
      var t := s.lock.value;
      assert HoldsLock(PcOf(s, t)) && InStart(PcOf(s, t));
    }
    forall c | c in s.sh.live && c in s.sh.cancelled
      ensures exists t: nat :: OwesStop(s, t, c)
    {
      assert AtRisk(s.sh, c);
    }
  }

  /** Every run, of any length and any interleaving of any number of calls, is safe throughout. */
  lemma {:induction false} RunsAreSafe(run: seq<State>)
    requires IsRun(run)
    ensures forall i :: 0 <= i < |run| ==> Inv(run[i]) && Safe(run[i])
  {
    var n := |run| - 1;
    if n == 0 {
      assert Inv(Start0);
    } else {
      RunsAreSafe(run[..n]);
      assert Next(run[n - 1], run[n]);
      var t: nat, ev :| Exec(run[n - 1], t, ev) == Some(run[n]);
      assert Inv(run[..n][n - 1]);
      StepKeepsInv(run[n - 1], t, ev);
    }
    InvIsSafe(run[n]);
    forall i | 0 <= i < |run|
      ensures Inv(run[i]) && Safe(run[i])
    {
      if i < n {
        assert run[i] == run[..n][i];
      }
    }
  }

  // ---- Progress ----

  /** How many steps of its own a call at `pc` has left at most. */
  function Remaining(pc: Pc): nat {
    match pc
    case Idle => 0
    case Unlock => 1
    case StartClear => 2
    case StartDone => 3
    case FailStopped(_) => 3
    case FailClose(_) => 4
    case StartStore(_) => 4
    case FailStatus(_) => 5
    case StartNew(_) => 6
    case StopClose(_) => 6
    case StartPublish => 7
    case StopEnter(_) => 7
    case StartBuild => 8
    case StopLock(_, _) => 8
    case StartCheck => 9
    case StopFire(_, _) => 9
    case StartLock => 10
    case StopRead => 10
  }

  /** No deadlock: whenever some call is unfinished, some call can take a step. */
  lemma SomeCallCanMove(s: State, t: nat)
    requires Inv(s) && PcOf(s, t) != Idle
    ensures exists u: nat :: PcOf(s, u) != Idle && Exec(s, u, Proceed).Some?
  {
    var mover := if s.lock.Some? then s.lock.value else t;
    assert HoldsLock(PcOf(s, mover)) <==> s.lock == Some(mover);
    assert Exec(s, mover, Proceed).Some?;
  }

  /** Every step brings the call that takes it nearer to its end, at most ten steps away, and
      moves no other call. */
  lemma StepsComeToAnEnd(s: State, t: nat, ev: Event)
    requires PcOf(s, t) != Idle && Exec(s, t, ev).Some?
    ensures Remaining(PcOf(Exec(s, t, ev).value, t)) < Remaining(PcOf(s, t)) <= 10
    ensures forall u: nat :: u != t ==> PcOf(Exec(s, t, ev).value, u) == PcOf(s, u)
  {
  }

  /** What aborting a start achieves: a Stop queued behind a start inside NewService has
      cancelled that start's context exactly when it read the handle after the start
      published it. */
  lemma QueuedStopHasAborted(run: seq<State>, i: nat, t: nat, u: nat)
    requires IsRun(run) && i < |run|
    requires PcOf(run[i], t).StartNew? && PcOf(run[i], u).StopLock?
    ensures var c := PcOf(run[i], t).ctx;
            && (PcOf(run[i], u).handle == Some(c) <==> c < PcOf(run[i], u).seen)
            && (c < PcOf(run[i], u).seen ==> c in run[i].sh.cancelled)
  {
    RunsAreSafe(run);
    assert HoldsLock(PcOf(run[i], t));
    assert Reading(run[i], PcOf(run[i], u));
  }

  /** The other case is real: a Stop that looked before the start published its handle waits
      for the whole of a start that nobody has cancelled. */
  lemma StopCanMissTheStart() returns (run: seq<State>)
    ensures IsRun(run)
    ensures var s := run[|run| - 1];
            && PcOf(s, 0) == StartNew(0) && PcOf(s, 1) == StopLock(None, 0)
            && s.sh.cancelled == {}
  {
    run := [Start0];
    run := Extended(run, 1, CallStop, State(Init, None, map[1 := StopRead]));
    run := Extended(run, 1, Proceed, State(Init, None, map[1 := StopFire(None, 0)]));
    var late := map[1 := StopFire(None, 0)];
    run := Extended(run, 0, CallStart, State(Init, None, late[0 := StartLock]));
    run := Extended(run, 0, Proceed, State(Init, Some(0), late[0 := StartCheck]));
    var sh := Init.(core := STARTING);
    run := Extended(run, 0, Proceed, State(sh, Some(0), late[0 := StartBuild]));
    run := Extended(run, 0, Proceed, State(sh, Some(0), late[0 := StartPublish]));
    run := Extended(run, 0, Proceed, State(PublishCancel(sh), Some(0), late[0 := StartNew(0)]));
    run := Extended(run, 1, Proceed,
                    State(PublishCancel(sh), Some(0), late[0 := StartNew(0)][1 := StopLock(None, 0)]));
  }

  lemma Extended(run: seq<State>, t: nat, ev: Event, s': State) returns (longer: seq<State>)
    requires IsPath(run) && Exec(run[|run| - 1], t, ev).Some?
    requires var r := Exec(run[|run| - 1], t, ev).value;
             r.sh == s'.sh && r.lock == s'.lock && r.pcs == s'.pcs
    ensures IsPath(longer) && longer[0] == run[0] && longer[|longer| - 1] == s'
  {
    longer := run + [s'];
    assert Next(run[|run| - 1], s');
  }

  /** Extends a path by a step of `t` that leaves it at `pc`, holding `sh` and `lock`. */
  lemma Advance(run: seq<State>, t: nat, ev: Event, sh: Shared, lock: Option<nat>, pc: Pc)
    returns (longer: seq<State>)
    requires IsPath(run)
    requires var r := Exec(run[|run| - 1], t, ev);
             r.Some? && r.value.sh == sh && r.value.lock == lock && PcOf(r.value, t) == pc
    ensures IsPath(longer) && longer[0] == run[0] && At(longer, t, sh, lock, pc)
  {
    longer := Extended(run, t, ev, Exec(run[|run| - 1], t, ev).value);
  }

  ghost predicate At(run: seq<State>, t: nat, sh: Shared, lock: Option<nat>, pc: Pc)
    requires |run| > 0
  {
    var s := run[|run| - 1];
    s.sh == sh && s.lock == lock && PcOf(s, t) == pc
  }

  // ---- The calls as the code writes them, by the owner of the lock ----

  datatype Outcome = Started | AlreadyStarted | ErrorBuildingConfig | ErrorStartService
                   | Stopped | AlreadyStopped | UnexpectedError

  /** A whole StartService call: a start that fails at any point leaves the fields as it found
      them, one that succeeds leaves exactly its own service running. */
  function StartResult(sh: Shared, buildOk: bool, startOk: bool): Shared {
    if sh.core != STOPPED || !buildOk then sh
    else if !startOk then sh.(nextCtx := sh.nextCtx + 1)
    else sh.(core := STARTED, started := Some(sh.nextCtx), live := {sh.nextCtx}, nextCtx := sh.nextCtx + 1)
  }

  /** A whole Stop call, whatever CloseService answers. */
  function StopResult(sh: Shared): Shared {
    sh.(core := STOPPED, started := None, live := {})
  }

  /** Uninterrupted, the steps of a start have the effect of the whole call. */
  lemma StartStepsAlone(s: State, t: nat, buildOk: bool, startOk: bool) returns (run: seq<State>)
    requires s.lock == None && Quiet(s.sh) && PcOf(s, t) == Idle
    ensures IsPath(run) && run[0] == s
    ensures var e := run[|run| - 1];
            e.sh == StartResult(s.sh, buildOk, startOk) && e.lock == None && PcOf(e, t) == Idle
  {
    var sh := s.sh;
    run := EnterStepsAlone(s, t);
    if sh.core == STOPPED {
      var starting := sh.(core := STARTING);
      if !buildOk {
        run := Advance(run, t, Fail, starting, Some(t), FailStatus(false));
        run := FailStepsAlone(run, t, starting, false);
      } else {
        run := Advance(run, t, Proceed, starting, Some(t), StartPublish);
        run := NewServiceStepsAlone(run, t, sh, startOk);
      }
    }
    run := Advance(run, t, Proceed, StartResult(sh, buildOk, startOk), None, Idle);
  }

  lemma EnterStepsAlone(s: State, t: nat) returns (run: seq<State>)
    requires s.lock == None && PcOf(s, t) == Idle
    ensures IsPath(run) && run[0] == s
    ensures if s.sh.core != STOPPED then At(run, t, s.sh, Some(t), Unlock)
            else At(run, t, s.sh.(core := STARTING), Some(t), StartBuild)
  {
    run := Advance([s], t, CallStart, s.sh, None, StartLock);
    run := Advance(run, t, Proceed, s.sh, Some(t), StartCheck);
    if s.sh.core != STOPPED {
      run := Advance(run, t, Proceed, s.sh, Some(t), Unlock);
    } else {
      run := Advance(run, t, Proceed, s.sh.(core := STARTING), Some(t), StartBuild);
    }
  }

  lemma NewServiceStepsAlone(run: seq<State>, t: nat, sh: Shared, startOk: bool) returns (longer: seq<State>)
    requires IsPath(run) && At(run, t, sh.(core := STARTING), Some(t), StartPublish)
    requires sh.core == STOPPED && Quiet(sh)
    ensures IsPath(longer) && longer[0] == run[0]
    ensures At(longer, t, StartResult(sh, true, startOk), Some(t), Unlock)
  {
    var c := sh.nextCtx;
    var published := PublishCancel(sh.(core := STARTING));
    longer := Advance(run, t, Proceed, published, Some(t), StartNew(c));
    if !startOk {
      longer := Advance(longer, t, Fail, published, Some(t), FailStatus(true));
      longer := FailStepsAlone(longer, t, published, true);
    } else {
      longer := StoreStepsAlone(longer, t, published, c);
    }
  }

  lemma StoreStepsAlone(run: seq<State>, t: nat, sh: Shared, c: Ctx) returns (longer: seq<State>)
    requires IsPath(run) && At(run, t, sh, Some(t), StartNew(c)) && sh.live == {}
    ensures IsPath(longer) && longer[0] == run[0]
    ensures At(longer, t, sh.(live := {c}, started := Some(c), core := STARTED, startCancel := None),
               Some(t), Unlock)
  {
    var up := sh.(live := {c});
    longer := Advance(run, t, Proceed, up, Some(t), StartStore(c));
    up := up.(started := Some(c));
    longer := Advance(longer, t, Proceed, up, Some(t), StartDone);
    up := up.(core := STARTED);
    longer := Advance(longer, t, Proceed, up, Some(t), StartClear);
    longer := Advance(longer, t, Proceed, up.(startCancel := None), Some(t), Unlock);
  }

  lemma FailStepsAlone(run: seq<State>, t: nat, sh: Shared, armed: bool) returns (longer: seq<State>)
    requires IsPath(run) && At(run, t, sh, Some(t), FailStatus(armed))
    requires Empty(sh) && (armed || sh.startCancel == None)
    ensures IsPath(longer) && longer[0] == run[0]
    ensures At(longer, t, sh.(core := STOPPED, startCancel := None), Some(t), Unlock)
  {
    var down := sh.(core := STOPPED);
    longer := Advance(run, t, Proceed, down, Some(t), FailClose(armed));
    longer := Advance(longer, t, Proceed, down, Some(t), FailStopped(armed));
    longer := Advance(longer, t, Proceed, down, Some(t), if armed then StartClear else Unlock);
    if armed {
      longer := Advance(longer, t, Proceed, down.(startCancel := None), Some(t), Unlock);
    }
  }

  /** So have the steps of a Stop. */
  lemma StopStepsAlone(s: State, t: nat, closeOk: bool) returns (run: seq<State>)
    requires s.lock == None && Quiet(s.sh) && PcOf(s, t) == Idle
    ensures IsPath(run) && run[0] == s
    ensures var e := run[|run| - 1];
            e.sh == StopResult(s.sh) && e.lock == None && PcOf(e, t) == Idle
  {
    run := QueueStepsAlone(s, t);
    run := Advance(run, t, Proceed, s.sh.(core := STOPPING), Some(t), StopClose(None));
    run := CloseStepsAlone(run, t, s.sh, closeOk);
    run := Advance(run, t, Proceed, StopResult(s.sh), None, Idle);
  }

  lemma CloseStepsAlone(run: seq<State>, t: nat, sh: Shared, closeOk: bool) returns (longer: seq<State>)
    requires IsPath(run) && At(run, t, sh.(core := STOPPING), Some(t), StopClose(None)) && Quiet(sh)
    ensures IsPath(longer) && longer[0] == run[0] && At(longer, t, StopResult(sh), Some(t), Unlock)
  {
    if sh.started.Some? && !closeOk {
      var dropped := DropService(sh.(core := STOPPING));
      longer := Advance(run, t, Fail, dropped, Some(t), FailStatus(false));
      longer := FailStepsAlone(longer, t, dropped, false);
    } else {
      longer := Advance(run, t, Proceed, StopResult(sh), Some(t), Unlock);
    }
  }

  lemma ReadStepsAlone(s: State, t: nat) returns (run: seq<State>)
    requires s.lock == None && s.sh.startCancel == None && PcOf(s, t) == Idle
    ensures IsPath(run) && run[0] == s && At(run, t, s.sh, None, StopFire(None, s.sh.nextCtx))
  {
    run := Advance([s], t, CallStop, s.sh, None, StopRead);
    run := Advance(run, t, Proceed, s.sh, None, StopFire(None, s.sh.nextCtx));
  }

  lemma QueueStepsAlone(s: State, t: nat) returns (run: seq<State>)
    requires s.lock == None && s.sh.startCancel == None && PcOf(s, t) == Idle
    ensures IsPath(run) && run[0] == s && At(run, t, s.sh, Some(t), StopEnter(None))
  {
    run := ReadStepsAlone(s, t);
    run := Advance(run, t, Proceed, s.sh, None, StopLock(None, s.sh.nextCtx));
    run := Advance(run, t, Proceed, s.sh, Some(t), StopEnter(None));
  }

  class InhiveInstance {
    var coreState: CoreState
    var startedService: Option<Ctx>
    var startCancel: Option<Ctx>
    // the contexts and services that exist around the instance
    var cancelled: set<Ctx>
    var live: set<Ctx>
    var nextCtx: Ctx

    function Sh(): Shared
      reads this
    {
      Shared(coreState, startedService, startCancel, cancelled, live, nextCtx)
    }

    constructor ()
      ensures Sh() == Init
    {
      coreState, startedService, startCancel := STOPPED, None, None;
      cancelled, live, nextCtx := {}, {}, 0;
    }

    method SetStartCancel() returns (c: Ctx)
      modifies this
      ensures c == old(nextCtx) && Sh() == PublishCancel(old(Sh()))
    {
      c := nextCtx;
      nextCtx := nextCtx + 1;
      if startCancel.Some? {
        cancelled := cancelled + {startCancel.value};
      }
      startCancel := Some(c);
    }

    method ClearStartCancel()
      modifies this`startCancel
      ensures startCancel == None
    {
      startCancel := None;
    }

    method AbortStart()
      modifies this`cancelled
      ensures Sh() == FireCancel(old(Sh()), old(startCancel))
    {
      var cancel := startCancel;
      if cancel.Some? {
        cancelled := cancelled + {cancel.value};
      }
    }

    method ErrorWrapper()
      modifies this`coreState, this`live, this`startedService
      ensures Sh() == DropService(old(Sh())).(core := STOPPED)
    {
      coreState := STOPPED;
      if startedService.Some? {
        live := live - {startedService.value};
        startedService := None;
      }
      coreState := STOPPED;
    }

    /** The locked section of StartService. */
    method StartService(buildOk: bool, startOk: bool) returns (r: Outcome)
      requires Quiet(Sh())
      modifies this
      ensures Sh() == StartResult(old(Sh()), buildOk, startOk) && Quiet(Sh())
      ensures r == AlreadyStarted <==> old(coreState) != STOPPED
      ensures r == Started <==> old(coreState) == STOPPED && buildOk && startOk
      ensures r == ErrorBuildingConfig <==> old(coreState) == STOPPED && !buildOk
    {
      if coreState != STOPPED {
        return AlreadyStarted;
      }
      coreState := STARTING;
      if !buildOk {
        ErrorWrapper();
        return ErrorBuildingConfig;
      }
      var c := SetStartCancel();
      if !startOk {
        ErrorWrapper();
        ClearStartCancel();
        return ErrorStartService;
      }
      live := live + {c};
      startedService := Some(c);
      coreState := STARTED;
      ClearStartCancel();
      return Started;
    }

    /** Stop called while no start is in progress. */
    method Stop(closeOk: bool) returns (r: Outcome)
      requires Quiet(Sh())
      modifies this
      ensures Sh() == StopResult(old(Sh())) && Quiet(Sh())
      ensures r == AlreadyStopped <==> old(startedService) == None
      ensures r == UnexpectedError <==> old(startedService).Some? && !closeOk
    {
      AbortStart();
      coreState := STOPPING;
      if startedService == None {
        coreState := STOPPED;
        return AlreadyStopped;
      }
      live := live - {startedService.value};
      startedService := None;
      if !closeOk {
        ErrorWrapper();
        return UnexpectedError;
      }
      coreState := STOPPED;
      return Stopped;
    }
  }
}
