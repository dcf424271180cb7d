/** The stop protocol of one node process (local/node_process.go): one lock,
    one channel closed when the process exits, the goroutine that waits for the
    exit, and any number of concurrent Stop and Status calls. Every statement
    that other goroutines can observe is one step, and steps interleave freely. */
module ProcessProtocol {
  import opened Common

  datatype Status = Unset | Running | Stopping | Stopped

  /** Where the one call of start is. */
  datatype Boot = New | Starting | StartDone | Up

  /** Where awaitExit is. */
  datatype Waiter = Idle | Awaiting | Locking | Marking | Closing | Unlocking | Finished

  /** Where a call of Stop is. */
  datatype Pc =
    | Entering    // about to take the lock
    | Deciding    // holds the lock, looks at the status
    | Following   // waits for the channel on behalf of another call
    | Signalling  // lock released, about to send the interrupt
    | Selecting   // waits for the channel or for its context
    | Killing     // context expired, about to send the kill
    | Draining    // waits for the channel
    | Relocking   // about to take the read lock
    | Reading     // holds the read lock, reads the exit code
    | Returned(code: int)

  datatype Holder = Free | ByStart | ByWaiter | ByCaller(i: nat)

  datatype State = State(
    boot: Boot,
    waiter: Waiter,
    callers: seq<Pc>,          // one entry per Stop call, in order of arrival
    lock: Holder,              // the write side of the lock
    readers: set<nat>,         // Stop calls that hold the read side
    status: Status,
    closes: nat,               // how often the channel was closed
    os: Option<int>,           // the exit of the operating system process
    collected: Option<int>,    // cmd.ProcessState, filled in by cmd.Wait
    leader: Option<nat>,       // the Stop call that set Stopping
    interrupts: nat,
    kills: nat,
    observed: seq<Status>)     // what Status calls returned

  datatype Action =
    | BeginStart | StartOk | StartFail | EndStart
    | Exit(code: int)
    | WaitReturns | WaiterLocks | WaiterMarks | WaiterCloses | WaiterUnlocks
    | Advance(i: nat) | Timeout(i: nat)
    | CallStop | CallStatus

  const INIT := State(New, Idle, [], Free, {}, Unset, 0, None, None, None, 0, 0, [])

  /** ExitCode() is -1 on a process that was never started. */
  function ExitCode(s: State): int {
    if s.collected.Some? then s.collected.value else -1
  }

  predicate Enabled(s: State, a: Action) {
    match a
    case BeginStart => s.boot.New? && s.lock.Free? && s.readers == {}
    case StartOk => s.boot.Starting?
    case StartFail => s.boot.Starting?
    case EndStart => s.boot.StartDone?
    case Exit(_) => s.waiter.Awaiting? && s.os.None?
    case WaitReturns => s.waiter.Awaiting? && s.os.Some?
    case WaiterLocks => s.waiter.Locking? && s.lock.Free? && s.readers == {}
    case WaiterMarks => s.waiter.Marking?
    case WaiterCloses => s.waiter.Closing?
    case WaiterUnlocks => s.waiter.Unlocking?
    case Timeout(i) => i < |s.callers| && s.callers[i].Selecting?
    case CallStop => s.boot.Up?
    case CallStatus => s.boot.Up? && s.lock.Free?
    case Advance(i) =>
      i < |s.callers| &&
      match s.callers[i]
      case Entering => s.lock.Free? && s.readers == {}
      case Deciding => true
      case Following => s.closes > 0
      case Signalling => true
      case Selecting => s.closes > 0
      case Killing => true
      case Draining => s.closes > 0
      case Relocking => s.lock.Free?
      case Reading => true
      case Returned(_) => false
  }

  /** One step of one goroutine. */
  function Step(s: State, a: Action): State
    requires Enabled(s, a)
  {
    match a
    case BeginStart => s.(boot := Starting, lock := ByStart, status := Running)
    case StartOk => s.(boot := StartDone, waiter := Awaiting)
    case StartFail => s.(boot := StartDone, status := Stopped, closes := s.closes + 1)
    case EndStart => s.(boot := Up, lock := Free)
    case Exit(code) => s.(os := Some(code))
    case WaitReturns => s.(waiter := Locking, collected := s.os)
    case WaiterLocks => s.(waiter := Marking, lock := ByWaiter)
    case WaiterMarks => s.(waiter := Closing, status := Stopped)
    case WaiterCloses => s.(waiter := Unlocking, closes := s.closes + 1)
    case WaiterUnlocks => s.(waiter := Finished, lock := Free)
    case Timeout(i) => s.(callers := s.callers[i := Killing])
    case CallStop => s.(callers := s.callers + [Entering])
    case CallStatus => s.(observed := s.observed + [s.status])
    case Advance(i) =>
      match s.callers[i]
      case Entering => s.(callers := s.callers[i := Deciding], lock := ByCaller(i))
      case Deciding =>
        if s.status == Stopped then
          s.(callers := s.callers[i := Returned(ExitCode(s))], lock := Free)
        else if s.status == Stopping then
          s.(callers := s.callers[i := Following], lock := Free)
        else
          s.(callers := s.callers[i := Signalling], lock := Free, status := Stopping, leader := Some(i))
      case Following => s.(callers := s.callers[i := Relocking])
      case Signalling => s.(callers := s.callers[i := Selecting], interrupts := s.interrupts + 1)
      case Selecting => s.(callers := s.callers[i := Draining])
      case Killing => s.(callers := s.callers[i := Draining], kills := s.kills + 1)
      case Draining => s.(callers := s.callers[i := Relocking])
      case Relocking => s.(callers := s.callers[i := Reading], readers := s.readers + {i})
      case Reading => s.(callers := s.callers[i := Returned(ExitCode(s))], readers := s.readers - {i})
  }

  /** The actions can be taken one after the other. */
  predicate Possible(s: State, run: seq<Action>)
    decreases |run|
  {
    run == [] || (Enabled(s, run[0]) && Possible(Step(s, run[0]), run[1..]))
  }

  function After(s: State, run: seq<Action>): State
    requires Possible(s, run)
    decreases |run|
  {
    if run == [] then s else After(Step(s, run[0]), run[1..])
  }

  // ---------- the invariant ----------

  /** Exactly the goroutines in a critical section hold the lock. */
  ghost predicate LockDiscipline(s: State) {
    && (s.lock == ByStart <==> s.boot.Starting? || s.boot.StartDone?)
    && (s.lock == ByWaiter <==> s.waiter.Marking? || s.waiter.Closing? || s.waiter.Unlocking?)
    && (forall i: nat :: s.lock == ByCaller(i) <==> i < |s.callers| && s.callers[i].Deciding?)
    && (forall i: nat :: i in s.readers <==> i < |s.callers| && s.callers[i].Reading?)
    && (s.readers != {} ==> s.lock.Free?)
    && (!s.boot.Up? ==> s.callers == [] && s.observed == [])
  }

  /** The status, the channel and the exit code follow start and awaitExit. */
  ghost predicate StatusFollows(s: State) {
    && (s.boot.New? ==> s.status == Unset)
    && (s.boot.Starting? ==> s.status == Running)
    && (s.boot.New? || s.boot.Starting? ==> s.waiter.Idle? && s.closes == 0)
    && (match s.waiter
        case Idle => s.boot.StartDone? || s.boot.Up? ==> s.status == Stopped && s.closes == 1
        case Awaiting | Locking | Marking => (s.status == Running || s.status == Stopping) && s.closes == 0
        case Closing => s.status == Stopped && s.closes == 0
        case Unlocking | Finished => s.status == Stopped && s.closes == 1)
    && (s.waiter.Idle? ==> s.os.None?)
    && s.collected == (if s.waiter.Idle? || s.waiter.Awaiting? then None else s.os)
    && (!s.waiter.Idle? && !s.waiter.Awaiting? ==> s.os.Some?)
  }

  predicate OnSignalPath(pc: Pc) {
    pc.Signalling? || pc.Selecting? || pc.Killing?  || pc.Draining?
  }

  /** One call leads; the others wait for it or come too late. */
  ghost predicate OneLeader(s: State) {
    && (s.leader.Some? ==> s.leader.value < |s.callers|)
    && (s.leader.None? ==> s.interrupts == 0 && s.kills == 0)
    && (s.leader.Some? ==> s.interrupts == if s.callers[s.leader.value].Signalling? then 0 else 1)
    && (s.leader.Some? && OnSignalPath(s.callers[s.leader.value]) && !s.callers[s.leader.value].Draining?
        ==> s.kills == 0)
    && s.kills <= s.interrupts
    && (s.status == Running || s.status == Unset ==> s.leader.None?)
    && (s.status == Stopping ==> s.leader.Some?)
    && (s.leader.Some? && s.callers[s.leader.value].Draining? && s.closes == 0 ==> s.kills == 1)
    && (s.leader.Some? ==> !s.waiter.Idle? && !s.callers[s.leader.value].Entering?
                           && !s.callers[s.leader.value].Deciding? && !s.callers[s.leader.value].Following?)
  }

  /** What each call knows at its point. */
  ghost predicate CallersKnow(s: State) {
    forall i :: 0 <= i < |s.callers| ==>
      var pc := s.callers[i];
      && (OnSignalPath(pc) ==> s.leader == Some(i))
      && (pc.Following? ==> s.leader.Some? && s.leader != Some(i))
      && (pc.Relocking? || pc.Reading? ==> s.closes == 1)
      && (pc.Returned? ==> s.closes == 1 && pc.code == ExitCode(s))
  }

  function Rank(st: Status): nat {
    match st case Unset => 0 case Running => 1 case Stopping => 2 case Stopped => 3
  }

  ghost predicate ObservedInOrder(s: State) {
    && (forall i :: 0 <= i < |s.observed| ==> 1 <= Rank(s.observed[i]) <= Rank(s.status))
    && (forall i, j :: 0 <= i < j < |s.observed| ==> Rank(s.observed[i]) <= Rank(s.observed[j]))
  }

  ghost predicate Inv(s: State) {
    LockDiscipline(s) && StatusFollows(s) && OneLeader(s) && CallersKnow(s) && ObservedInOrder(s)
  }

  lemma StepKeepsLockDiscipline(s: State, a: Action)
    requires LockDiscipline(s) && Enabled(s, a)
    ensures LockDiscipline(Step(s, a))
  {
  }

  lemma StepKeepsStatusFollows(s: State, a: Action)
    requires LockDiscipline(s) && StatusFollows(s) && Enabled(s, a)
    ensures StatusFollows(Step(s, a))
  {
  }

  lemma StepKeepsOneLeader(s: State, a: Action)
    requires Inv(s) && Enabled(s, a)
    ensures OneLeader(Step(s, a))
  {
  }

  lemma StepKeepsCallersKnow(s: State, a: Action)
    requires Inv(s) && Enabled(s, a)
    ensures CallersKnow(Step(s, a))
  {
  }

  lemma StepKeepsObservedInOrder(s: State, a: Action)
    requires StatusFollows(s) && ObservedInOrder(s) && Enabled(s, a)
    ensures ObservedInOrder(Step(s, a))
  {
  }

  lemma StepKeepsInv(s: State, a: Action)
    requires Inv(s) && Enabled(s, a)
    ensures Inv(Step(s, a))
  {
    StepKeepsLockDiscipline(s, a);
    StepKeepsStatusFollows(s, a);
    StepKeepsOneLeader(s, a);
    StepKeepsCallersKnow(s, a);
    StepKeepsObservedInOrder(s, a);
  }

  /** Every interleaving keeps the invariant. */
  lemma {:induction false} RunKeepsInv(s: State, run: seq<Action>)
    requires Inv(s) && Possible(s, run)
    ensures Inv(After(s, run))
    decreases |run|
  {
    if run != [] {
      StepKeepsInv(s, run[0]);
      RunKeepsInv(Step(s, run[0]), run[1..]);
    }
  }

  // ---------- safety ----------

  predicate AwaitsChannel(pc: Pc) {
    pc.Following? || pc.Selecting? || pc.Draining?
  }

  /** The status never goes back, over any stretch of any run. */
  lemma {:induction false} StatusOnlyAdvances(s: State, run: seq<Action>)
    requires Inv(s) && Possible(s, run)
    ensures Rank(s.status) <= Rank(After(s, run).status)
    decreases |run|
  {
    if run != [] {
      StepKeepsInv(s, run[0]);
      StatusOnlyAdvances(Step(s, run[0]), run[1..]);
    }
  }

  /** In every state of every interleaving: the channel is closed at most once,
      and with the lock free it is closed exactly when the process is Stopped;
      one interrupt at most is sent, and only to a process that was started;
      a call has returned only if the process is Stopped, and all calls that
      returned did so with the one exit code; no call holds the lock while it
      waits for the channel; and what Status returned never goes back. */
  lemma StopProtocolIsSafe(run: seq<Action>)
    requires Possible(INIT, run)
    ensures var s := After(INIT, run);
            && s.closes <= 1
            && (s.lock.Free? ==> (s.closes == 1 <==> s.status == Stopped))
            && s.kills <= s.interrupts <= 1
            && (s.interrupts == 1 || s.status == Stopping ==> !s.waiter.Idle?)
            && (forall i :: 0 <= i < |s.callers| && s.callers[i].Returned? ==>
                  s.status == Stopped && s.callers[i].code == if s.os.Some? then s.os.value else -1)
            && (forall i, j :: 0 <= i < j < |s.callers| && s.callers[i].Returned? && s.callers[j].Returned?
                  ==> s.callers[i] == s.callers[j])
            && (forall i: nat :: i < |s.callers| && AwaitsChannel(s.callers[i])
                  ==> s.lock != ByCaller(i) && i !in s.readers)
            && (forall i, j :: 0 <= i < j < |s.observed| ==> Rank(s.observed[i]) <= Rank(s.observed[j]))
            && Unset !in s.observed
  {
    RunKeepsInv(INIT, run);
    var s := After(INIT, run);
    assert Rank(Unset) == 0;
  }

  // ---------- progress ----------

  /** The steps the protocol takes by itself, the exit of the process included;
      new Stop and Status calls come from outside. */
  predicate Internal(a: Action) {
    !a.CallStop? && !a.CallStatus?
  }

  function PcRank(pc: Pc): nat {
    match pc
    case Entering => 9 case Deciding => 8 case Signalling => 7 case Selecting => 6 case Killing => 5
    case Following => 4 case Draining => 4 case Relocking => 2 case Reading => 1 case Returned(_) => 0
  }

  function SumRanks(pcs: seq<Pc>): nat {
    if pcs == [] then 0 else PcRank(pcs[0]) + SumRanks(pcs[1..])
  }

  lemma {:induction false} SumRanksUpdate(pcs: seq<Pc>, i: nat, pc: Pc)
    requires i < |pcs|
    ensures SumRanks(pcs[i := pc]) == SumRanks(pcs) - PcRank(pcs[i]) + PcRank(pc)
  {
    if i == 0 {
      assert pcs[0 := pc][1..] == pcs[1..];
    } else {
      assert pcs[i := pc][1..] == pcs[1..][i - 1 := pc];
      SumRanksUpdate(pcs[1..], i - 1, pc);
    }
  }

  function BootRank(b: Boot): nat {
    match b case New => 3 case Starting => 2 case StartDone => 1 case Up => 0
  }

  function WaiterRank(w: Waiter): nat {
    match w
    case Idle => 7 case Awaiting => 6 case Locking => 5 case Marking => 4
    case Closing => 3 case Unlocking => 2 case Finished => 1
  }

  /** How many steps are left. */
  function Remaining(s: State): nat {
    BootRank(s.boot) + WaiterRank(s.waiter) + (if s.os.None? then 1 else 0) + SumRanks(s.callers)
  }

  lemma CallStepsRunOut(s: State, a: Action)
    requires Enabled(s, a) && (a.Advance? || a.Timeout?)
    ensures var t := Step(s, a);
            SumRanks(t.callers) < SumRanks(s.callers) && t.boot == s.boot && t.waiter == s.waiter && t.os == s.os
  {
    var t := Step(s, a);
    SumRanksUpdate(s.callers, a.i, t.callers[a.i]);
    assert t.callers == s.callers[a.i := t.callers[a.i]];
  }

  lemma InternalStepsRunOut(s: State, a: Action)
    requires StatusFollows(s) && Enabled(s, a) && Internal(a)
    ensures Remaining(Step(s, a)) < Remaining(s)
  {
    if a.Advance? || a.Timeout? {
      CallStepsRunOut(s, a);
    } else {
      assert Step(s, a).callers == s.callers;
    }
  }

  /** Left to itself the protocol makes a bounded number of steps. */
  lemma {:induction false} RunsAreBounded(s: State, run: seq<Action>)
    requires Inv(s) && Possible(s, run) && forall a :: a in run ==> Internal(a)
    ensures |run| <= Remaining(s)
    decreases |run|
  {
    if run != [] {
      InternalStepsRunOut(s, run[0]);
      StepKeepsInv(s, run[0]);
      RunsAreBounded(Step(s, run[0]), run[1..]);
    }
  }

  /** No goroutine can move. */
  ghost predicate Stuck(s: State) {
    forall a :: Internal(a) && !a.Exit? ==> !Enabled(s, a)
  }

  /** Some goroutine can move unless every Stop call has returned, or a kill was
      sent and the operating system has not delivered the exit yet, which it still can with
      any code; and then new calls can come. */
  lemma NoDeadlock(s: State)
    requires Inv(s) && Stuck(s)
    ensures s.boot.Up? && s.lock.Free? && s.readers == {} && Enabled(s, CallStop) && Enabled(s, CallStatus)
    ensures s.os.None? && s.waiter.Awaiting? ==> forall code :: Enabled(s, Exit(code))
    ensures || (forall i :: 0 <= i < |s.callers| ==> s.callers[i].Returned?)
            || (s.kills == 1 && s.os.None? && s.waiter.Awaiting?)
  {
    assert !Enabled(s, BeginStart) && !Enabled(s, StartOk) && !Enabled(s, EndStart);
    assert !Enabled(s, WaiterMarks) && !Enabled(s, WaiterCloses) && !Enabled(s, WaiterUnlocks);
    forall i: nat ensures i !in s.readers && s.lock != ByCaller(i) {
      assert !Enabled(s, Advance(i));
    }
    assert !Enabled(s, WaiterLocks) && !Enabled(s, WaitReturns);
    if i :| 0 <= i < |s.callers| && !s.callers[i].Returned? {
      WaitingMeansKilled(s, i);
    }
  }

  lemma WaitingMeansKilled(s: State, i: nat)
    requires Inv(s) && Stuck(s) && i < |s.callers| && !s.callers[i].Returned?
    requires s.lock.Free? && s.readers == {} && (s.waiter.Idle? || s.waiter.Finished? || (s.waiter.Awaiting? && s.os.None?))
    ensures s.kills == 1 && s.os.None? && s.waiter.Awaiting?
  {
    assert !Enabled(s, Advance(i)) && !Enabled(s, Timeout(i));
    assert s.closes == 0 && s.leader.Some?;
    assert !Enabled(s, Advance(s.leader.value)) && !Enabled(s, Timeout(s.leader.value));
  }

  /** Every Stop call returns: after any interleaving, let the protocol run on
      its own as long as it can. It comes to a halt, and then every Stop call
      has returned with the exit code of the stopped process, unless the
      process was sent a kill that it has survived. */
  lemma EveryStopReturns(history: seq<Action>, run: seq<Action>)
    requires Possible(INIT, history)
    requires Possible(After(INIT, history), run) && forall a :: a in run ==> Internal(a)
    requires Stuck(After(After(INIT, history), run))
    ensures |run| <= Remaining(After(INIT, history))
    ensures var s := After(After(INIT, history), run);
            || (s.kills == 1 && s.os.None?)
            || (forall i :: 0 <= i < |s.callers| ==>
                  s.callers[i] == Returned(if s.os.Some? then s.os.value else -1) && s.status == Stopped)
  {
    var s0 := After(INIT, history);
    RunKeepsInv(INIT, history);
    RunKeepsInv(s0, run);
    RunsAreBounded(s0, run);
    var s := After(s0, run);
    NoDeadlock(s);
  }

  /** Without a context that ends, no kill is ever sent; and once the process has exited, every
      Stop call returns without one. */
  lemma PatientStopReturns(run: seq<Action>)
    requires Possible(INIT, run)
    ensures (forall a :: a in run ==> !a.Timeout?) ==> After(INIT, run).kills == 0
    ensures var s := After(INIT, run);
            (forall a :: Enabled(s, a) ==> a.Timeout? || a.Exit? || a.CallStop? || a.CallStatus?) && (s.os.Some? || s.waiter.Idle?) ==>
              forall i :: 0 <= i < |s.callers| ==> s.callers[i].Returned?
  {
    var s := After(INIT, run);
    RunKeepsInv(INIT, run);
    if forall a :: a in run ==> !a.Timeout? { NoKillYet(INIT, run); }
    if (forall a :: Enabled(s, a) ==> a.Timeout? || a.Exit? || a.CallStop? || a.CallStatus?) && (s.os.Some? || s.waiter.Idle?) {
      AllReturned(s);
    }
  }

  lemma AllReturned(s: State)
    requires Inv(s) && (s.os.Some? || s.waiter.Idle?)
    requires forall a :: Enabled(s, a) ==> a.Timeout? || a.Exit? || a.CallStop? || a.CallStatus?
    ensures forall i :: 0 <= i < |s.callers| ==> s.callers[i].Returned?
  {
    assert !Enabled(s, BeginStart) && !Enabled(s, StartOk) && !Enabled(s, EndStart);
    assert !Enabled(s, WaiterMarks) && !Enabled(s, WaiterCloses) && !Enabled(s, WaiterUnlocks);
    forall i: nat ensures i !in s.readers && s.lock != ByCaller(i) {
      assert !Enabled(s, Advance(i));
    }
    assert !Enabled(s, WaiterLocks) && !Enabled(s, WaitReturns);
    assert s.closes == 1;
    forall i | 0 <= i < |s.callers| ensures s.callers[i].Returned? {
      assert !Enabled(s, Advance(i));
    }
  }

  lemma {:induction false} NoKillYet(s: State, run: seq<Action>)
    requires Possible(s, run) && s.kills == 0 && (forall a :: a in run ==> !a.Timeout?) && forall i :: 0 <= i < |s.callers| ==> !s.callers[i].Killing?
    ensures After(s, run).kills == 0
    decreases |run|
  {
    if run != [] {
      assert run[0] in run;
      NoKillYet(Step(s, run[0]), run[1..]);
    }
  }

  // ---------- exit codes ----------

  /** The operating system's exit is the one that occurs in the run, if any does. */
  lemma {:induction false} ExitIsRecorded(s: State, run: seq<Action>)
    requires Possible(s, run)
    ensures s.os.Some? ==> After(s, run).os == s.os && forall x :: Exit(x) !in run
    ensures s.os.None? ==> forall x :: Exit(x) in run <==> After(s, run).os == Some(x)
    decreases |run|
  {
    if run != [] {
      var t := Step(s, run[0]);
      ExitIsRecorded(t, run[1..]);
      forall x ensures Exit(x) in run <==> run[0] == Exit(x) || Exit(x) in run[1..] {
        assert run == [run[0]] + run[1..];
      }
    }
  }

  /** Every Stop call that returns does so with the code the process exited with, or with -1
      if the process was never started. */
  lemma ReturnedCodesAreReal(run: seq<Action>, i: nat)
    requires Possible(INIT, run) && i < |After(INIT, run).callers| && After(INIT, run).callers[i].Returned?
    ensures var c := After(INIT, run).callers[i].code;
            && (forall x :: Exit(x) in run ==> c == x)
            && ((forall x :: Exit(x) !in run) ==> c == -1)
  {
    var s := After(INIT, run);
    RunKeepsInv(INIT, run);
    ExitIsRecorded(INIT, run);
  }

  lemma {:induction false} ClosedStays(s: State, run: seq<Action>)
    requires Possible(s, run)
    ensures After(s, run).closes >= s.closes
    decreases |run|
  {
    if run != [] { ClosedStays(Step(s, run[0]), run[1..]); }
  }

  /** What Status returns once a Stop call has returned is that the process has stopped, and
      before the first Stop call of a started process has decided, that it runs. */
  lemma StatusTellsTheTruth(history: seq<Action>, run: seq<Action>)
    requires Possible(INIT, history) && Possible(After(INIT, history), run)
    requires Enabled(After(After(INIT, history), run), CallStatus)
    ensures var s := After(After(INIT, history), run);
            var told := Step(s, CallStatus).observed;
            && |told| == |s.observed| + 1 && told[..|s.observed|] == s.observed
            && ((exists i :: 0 <= i < |After(INIT, history).callers| && After(INIT, history).callers[i].Returned?) ==>
                  told[|s.observed|] == Stopped)
            && (s.waiter.Awaiting? && s.interrupts == 0 && (forall i :: 0 <= i < |s.callers| ==> s.callers[i].Entering?) ==>
                  told[|s.observed|] == Running)
  {
    var s0 := After(INIT, history);
    RunKeepsInv(INIT, history);
    RunKeepsInv(s0, run);
    ClosedStays(s0, run);
  }
}
