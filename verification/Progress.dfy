/** Wake-ups, the measure that shutdown uses up, and exactly when a destroy can return. */
module Progress {
  import opened PoolTypes
  import opened PoolMachine
  import opened Weights
  import opened PoolInvariant
  import opened PoolInvariantProof
  import opened PoolRuns

  // ---------- No lost wake-up ----------

  /** Whenever somebody sleeps unsignalled, every pending task is matched by a worker that has yet to test
      the loop condition, by a signal about to be sent, or by a signal that failed. So if no signal failed
      and none is due, a pending task never sits with every worker asleep. */
  lemma NoLostWakeup(s: State)
    requires Reachable(s) && exists i :: 0 <= i < |s.workers| && s.workers[i].Asleep?
    ensures s.mem.count <= Sum(AlertW, s.workers) + (if SignalDue(s) then 1 else 0) + s.failedSignals
    ensures s.failedSignals == 0 && s.lock == None && s.mem.count > 0 ==>
              exists i :: 0 <= i < |s.workers| && WorkerEnabled(s, i, Acquire)
  {
    ReachableInv(s);
    SumZero(AsleepW, s.workers);
    SumZero(AlertW, s.workers);
    if s.failedSignals == 0 && s.lock == None && s.mem.count > 0 {
      var i :| 0 <= i < |s.workers| && Weigh(AlertW, s.workers[i]) != 0;
      assert !Holds(s, Worker(i));
      assert WorkerEnabled(s, i, Acquire);
    }
  }

  /** Once the broadcast is done nobody sleeps, and nobody falls asleep again in any run. */
  lemma NobodySleepsAgain(s: State, steps: seq<Step>)
    requires Reachable(s) && s.broadcast && IsRun(s, steps)
    ensures forall i :: 0 <= i < |Exec(s, steps).workers| ==> !Exec(s, steps).workers[i].Asleep?
  {
    ReachableInv(s);
    RunExtends(s, steps);
  }

  predicate AllAsleep(s: State) {
    forall i | 0 <= i < |s.workers| :: s.workers[i].Asleep?
  }

  /** A task is pending, every worker is asleep, and no signal is about to be sent. */
  predicate Neglected(s: State) {
    s.mem.count > 0 && AllAsleep(s) && !SignalDue(s)
  }

  /** The one step that can neglect a task: of all steps of all threads, a pending task comes to be left with
      every worker asleep and no signal due if and only if the step is the failure of a signal sent while
      every worker was asleep. */
  lemma NeglectIff(s: State, step: Step)
    requires Reachable(s) && !Neglected(s) && Enabled(s, step)
    ensures Neglected(Do(s, step)) <==> step.CallStep? && step.act.SignalFails? && AllAsleep(s)
  {
    ReachableInv(s);
    match step {
      case CreatorStep(act) =>
      case WorkerStep(i, act) => NeglectWorker(s, i, act);
      case CallStep(c, act) =>
        CallMoved(s, c, act);
        NeglectCall(s, c, act, DoCall(s, c, act));
    }
  }

  lemma NeglectWorker(s: State, i: nat, act: WorkerAct)
    requires ShapeOk(s) && LockOk(s) && !Neglected(s) && WorkerEnabled(s, i, act)
    ensures !Neglected(DoWorker(s, i, act))
  {
    assert Holds(s, Worker(i)) <==> s.lock == Some(Worker(i));
    if !(act.Test? && TurnOf(s.mem) == Wait) {
      assert !DoWorker(s, i, act).workers[i].Asleep?;
    }
  }

  lemma NeglectCall(s: State, c: Tid, act: CallAct, t: State)
    requires ShapeOk(s) && LockOk(s) && WakeOk(s) && !Neglected(s)
    requires CallEnabled(s, c, act) && Moved(s, c, act, t)
    ensures Neglected(t) <==> act.SignalFails? && AllAsleep(s)
  {
    assert Holds(s, c) <==> s.lock == Some(c);
    assert AllAsleep(t) ==> AllAsleep(s) by {
      assert forall j :: 0 <= j < |s.workers| && t.workers[j].Asleep? ==> s.workers[j].Asleep?;
    }
    if act.SignalNobody? { assert !s.workers[0].Asleep?; }
  }

  lemma ReleaseFrees(t: State, c: Tid)
    requires CallEnabled(t, c, AddRelease) && !SignalDue(t)
    ensures DoCall(t, c, AddRelease).lock == None
    ensures Neglected(DoCall(t, c, AddRelease)) <==> Neglected(t)
  {
    CallMoved(t, c, AddRelease);
  }

  /** An add that has queued its task and then signals and unlocks leaves the lock free, a task pending and every
      worker asleep if and only if the signal failed and every worker was asleep. */
  lemma SignalStrandsIff(s: State, c: Tid, act: CallAct)
    requires Reachable(s) && CallOf(s, c).AddSignal? && CallEnabled(s, c, act)
    ensures CallEnabled(DoCall(s, c, act), c, AddRelease)
    ensures var t := DoCall(DoCall(s, c, act), c, AddRelease);
            Neglected(t) && t.lock == None <==> act.SignalFails? && AllAsleep(s)
  {
    SignalOwner(s, c);
    NeglectIff(s, CallStep(c, act));
    CallMoved(s, c, act);
    ReleaseFrees(DoCall(s, c, act), c);
  }

  lemma SignalOwner(s: State, c: Tid)
    requires Reachable(s) && CallOf(s, c).AddSignal?
    ensures s.lock == Some(c)
  {
    ReachableInv(s);
    assert Holds(s, c) <==> s.lock == Some(c);
  }

  /** In a run in which no signal failed, no task is ever neglected. */
  lemma NeverNeglected(s: State)
    requires Reachable(s) && s.failedSignals == 0
    ensures !Neglected(s)
  {
    ReachableInv(s);
    SumZero(AsleepW, s.workers);
    SumZero(AlertW, s.workers);
    if s.workers[0].Asleep? { assert Weigh(AsleepW, s.workers[0]) != 0; }
  }

  // ---------- The measure ----------

  /** Workers' steps that are still possible after the broadcast. */
  function Measure(s: State): nat {
    4 * s.mem.count + Sum(RankW, s.workers)
  }

  lemma MeasureWorker(s: State, i: nat, act: WorkerAct)
    requires CloseOk(s) && s.broadcast && WorkerEnabled(s, i, act)
    ensures Measure(DoWorker(s, i, act)) < Measure(s)
  {
    WorkerSum(s, i, act, RankW);
  }

  lemma MeasureCall(s: State, c: Tid, act: CallAct, t: State)
    requires CloseOk(s) && s.broadcast && CallEnabled(s, c, act) && Moved(s, c, act, t)
    ensures Measure(t) == Measure(s)
  {
    assert Sum(RankW, t.workers) == Sum(RankW, s.workers);
  }

  /** After the broadcast each worker step uses the measure up, and no other step adds to it. */
  lemma MeasureStep(s: State, step: Step)
    requires Inv(s) && s.broadcast && Enabled(s, step)
    ensures Measure(Do(s, step)) + (if step.WorkerStep? then 1 else 0) <= Measure(s)
  {
    match step {
      case CreatorStep(act) =>
      case WorkerStep(i, act) => MeasureWorker(s, i, act);
      case CallStep(c, act) =>
        CallMoved(s, c, act);
        MeasureCall(s, c, act, DoCall(s, c, act));
    }
  }

  lemma {:induction false} MeasureRun(s: State, steps: seq<Step>)
    requires Inv(s) && s.broadcast && IsRun(s, steps)
    ensures Measure(Exec(s, steps)) + WorkerSteps(steps) <= Measure(s)
    decreases |steps|
  {
    if steps != [] {
      MeasureStep(s, steps[0]);
      InvStep(s, steps[0]);
      StepExtends(s, steps[0]);
      MeasureRun(Do(s, steps[0]), steps[1..]);
    }
  }

  /** Shutdown terminates: after the broadcast the workers together take at most four steps for each pending
      task and six for each thread, under every schedule, whatever clients and tasks do. */
  lemma ShutdownTerminates(s: State, steps: seq<Step>)
    requires Reachable(s) && s.broadcast && IsRun(s, steps)
    ensures WorkerSteps(steps) <= 4 * s.mem.count + 6 * |s.workers|
  {
    ReachableInv(s);
    MeasureRun(s, steps);
    SumAtMost(RankW, s.workers, 6);
  }

  // ---------- When a destroy can return ----------

  /** The destroy that set the flag is still in its call and has met no error. */
  predicate InProgress(s: State) {
    s.closing.Some? &&
    var call := CallOf(s, s.closing.value.closer);
    call.DestroyBroadcast? || call.DestroyUnlock? || call.DestroyFree? || (call.DestroyJoin? && call.err == 0)
  }

  /** The lock is held by a destroy that returned without unlocking, or that found the flag already set
      and is about to. */
  predicate Doomed(s: State) {
    s.lock.Some? &&
    var call := CallOf(s, s.lock.value);
    call.ReturnedHolding? || (call.DestroyBody? && s.mem.shutdown != Open)
  }

  predicate Returned(s: State) {
    s.closing.Some? && CallOf(s, s.closing.value.closer) == DestroyReturned(0)
  }

  /** Everything left to do, by workers, by the tasks they run, and by calls in progress. */
  function Remaining(s: State): nat {
    4 * s.mem.count + Sum(RankW, s.workers) + Sum(TaskCallW, s.workers)
    + SumCalls(s.clients, s.mem.threadCount)
    + if s.creator.RollingBack? then CallRank(s.creator.call, s.mem.threadCount) else 0
  }

  /** How the remaining work changes with one call, and with what its action does elsewhere. */
  lemma SetCallRemaining(s: State, tid: Tid, call: Call)
    requires Caller(s, tid)
    ensures var n := if tid.Worker? then 0 else s.mem.threadCount;
            Remaining(SetCall(s, tid, call)) + CallRank(CallOf(s, tid), n) == Remaining(s) + CallRank(call, n)
  {
    match tid {
      case Creator =>
      case Client(c) => SumCallsUpdate(s.clients, s.mem.threadCount, c, call);
      case Worker(i) =>
        SumUpdate(RankW, s.workers, i, s.workers[i].(call := call));
        SumUpdate(TaskCallW, s.workers, i, s.workers[i].(call := call));
    }
  }

  /** The actions of a call that bring the return of the destroy nearer. */
  predicate Advances(s: State, c: Tid, act: CallAct) {
    act.AddRun? || act.SignalNobody? || act.AddRelease? || act.BroadcastAll? || act.DestroyRelease?
    || act.JoinNext? || act.JoinDone? || act.FreePool? || (act.TakeLock? && CallOf(s, c).AddLock?)
  }

  lemma AdvanceRank(s: State, c: Tid, act: CallAct, n: nat)
    requires CallOk(s, c) && s.mem.shutdown != Open && CallEnabled(s, c, act) && Advances(s, c, act)
    requires n == if c.Worker? then 0 else s.mem.threadCount
    ensures CallRank(NextCall(s, c, act), n) < CallRank(CallOf(s, c), n)
  {
  }

  lemma AdvanceEffect(s: State, c: Tid, act: CallAct)
    requires s.mem.shutdown != Open && CallEnabled(s, c, act) && Advances(s, c, act)
    ensures Remaining(Effect(s, c, act)) == Remaining(s)
    ensures CallOf(Effect(s, c, act), c) == CallOf(s, c)
    ensures Effect(s, c, act).mem.threadCount == s.mem.threadCount
  {
    if act.BroadcastAll? {
      SumWakeAll(RankW, s.workers);
      SumWakeAll(TaskCallW, s.workers);
    }
  }

  lemma CallProgress(s: State, c: Tid, act: CallAct)
    requires Inv(s) && s.closing.Some? && CallEnabled(s, c, act) && Advances(s, c, act)
    ensures Remaining(DoCall(s, c, act)) < Remaining(s)
  {
    var n := if c.Worker? then 0 else s.mem.threadCount;
    assert CallOk(s, c);
    AdvanceRank(s, c, act, n);
    AdvanceEffect(s, c, act);
    SetCallRemaining(Effect(s, c, act), c, NextCall(s, c, act));
  }

  lemma WorkerProgress(s: State, i: nat, act: WorkerAct)
    requires Inv(s) && s.broadcast && WorkerEnabled(s, i, act)
    ensures Remaining(DoWorker(s, i, act)) < Remaining(s)
  {
    WorkerSum(s, i, act, RankW);
    WorkerSum(s, i, act, TaskCallW);
  }

  /** What the owner of the lock does next, when it is not doomed. */
  lemma OwnerStep(s: State) returns (step: Step)
    requires Inv(s) && InProgress(s) && !Doomed(s) && s.lock.Some?
    ensures Enabled(s, step) && Remaining(Do(s, step)) < Remaining(s)
    ensures Plain(step) && (step.CallStep? ==> Advances(s, step.tid, step.act))
  {
    var tid := s.lock.value;
    assert Holds(s, tid);
    assert CallOk(s, tid);
    assert CallOk(s, s.closing.value.closer);
    if tid.Worker? && !s.workers[tid.i].Busy? {
      var act := match s.workers[tid.i]
        case Testing => Test
        case Grabbed(_, _) => GrabRelease
        case Exiting => DropStarted
        case _ => ExitRelease;
      step := WorkerStep(tid.i, act);
      WorkerProgress(s, tid.i, act);
    } else {
      var act := match CallOf(s, tid)
        case AddBody(_) => AddRun
        case AddSignal(_, _) => SignalNobody
        case AddUnlock(_, _, _) => AddRelease
        case DestroyBroadcast => BroadcastAll
        case _ => DestroyRelease;
      step := CallStep(tid, act);
      CallProgress(s, tid, act);
    }
  }

  /** What can be done next while the lock is free. */
  lemma FreeStep(s: State) returns (step: Step)
    requires Inv(s) && InProgress(s) && s.lock == None
    ensures Enabled(s, step) && Remaining(Do(s, step)) < Remaining(s)
    ensures Plain(step) && (step.CallStep? ==> Advances(s, step.tid, step.act))
  {
    var closer := s.closing.value.closer;
    assert CallOk(s, closer);
    if AllExited(s, s.mem.threadCount) {
      var act := match CallOf(s, closer)
        case DestroyFree => FreePool
        case DestroyJoin(j, _) => if j < s.mem.threadCount then JoinNext else JoinDone
        case _ => FreePool;
      step := CallStep(closer, act);
      CallProgress(s, closer, act);
    } else {
      var i :| 0 <= i < s.mem.threadCount && !s.workers[i].Exited?;
      assert !Holds(s, Worker(i));
      var pc := s.workers[i];
      if pc.AtLock? || pc.Woken? {
        step := WorkerStep(i, Acquire);
        WorkerProgress(s, i, Acquire);
      } else {
        assert pc.Busy? && CallOk(s, Worker(i));
        if Resting(pc.call) {
          step := WorkerStep(i, FinishTask);
          WorkerProgress(s, i, FinishTask);
        } else {
          step := CallStep(Worker(i), TakeLock);
          CallProgress(s, Worker(i), TakeLock);
        }
      }
    }
  }

  lemma AdvanceNext(s: State, c: Tid, act: CallAct)
    requires CreationOk(s) && CallOk(s, c) && CallEnabled(s, c, act) && Advances(s, c, act)
    requires s.closing.Some? && s.mem.shutdown != Open
    ensures var call, next := CallOf(s, c), NextCall(s, c, act);
            && !next.ReturnedHolding? && !next.DestroyBody?
            && (Closer(s, c) && (call.DestroyBroadcast? || call.DestroyUnlock? || call.DestroyFree?
                                 || (call.DestroyJoin? && call.err == 0)) ==>
                  next.DestroyUnlock? || next.DestroyFree? || (next.DestroyJoin? && next.err == 0)
                  || next == DestroyReturned(0))
            && Effect(s, c, act).closing == s.closing
            && (Effect(s, c, act).lock in {s.lock, None, Some(c)})
  {
  }

  lemma AdvanceKeeps(s: State, c: Tid, act: CallAct, t: State)
    requires CreationOk(s) && CallOk(s, c) && CloseOk(s) && InProgress(s) && !Doomed(s)
    requires CallEnabled(s, c, act) && Advances(s, c, act) && Moved(s, c, act, t)
    ensures !Doomed(t) && (InProgress(t) || Returned(t)) && t.closing == s.closing
  {
    AdvanceNext(s, c, act);
  }

  lemma WorkKeeps(s: State, i: nat, act: WorkerAct)
    requires LockOk(s) && CloseOk(s) && InProgress(s) && !Doomed(s) && WorkerEnabled(s, i, act)
    ensures var t := DoWorker(s, i, act);
            !Doomed(t) && InProgress(t) && t.closing == s.closing
  {
    var t := DoWorker(s, i, act);
    assert CallOf(t, s.closing.value.closer) == CallOf(s, s.closing.value.closer);
    assert t.lock.Some? ==> t.lock.value == Worker(i) || CallOf(t, t.lock.value) == CallOf(s, t.lock.value);
  }

  /** No deadlock: while a destroy is in progress and not doomed, some step is enabled that brings its
      return nearer, and leaves it so. */
  lemma ProgressStep(s: State) returns (step: Step)
    requires Inv(s) && InProgress(s) && !Doomed(s)
    ensures Enabled(s, step) && Remaining(Do(s, step)) < Remaining(s)
    ensures !Doomed(Do(s, step)) && (InProgress(Do(s, step)) || Returned(Do(s, step)))
    ensures Plain(step) && Do(s, step).closing == s.closing
  {
    if s.lock.Some? {
      step := OwnerStep(s);
    } else {
      step := FreeStep(s);
    }
    match step {
      case CreatorStep(act) =>
      case WorkerStep(i, act) => WorkKeeps(s, i, act);
      case CallStep(c, act) =>
        assert CallOk(s, c);
        CallMoved(s, c, act);
        AdvanceKeeps(s, c, act, DoCall(s, c, act));
    }
  }

  lemma {:induction false} CanReturn(s: State) returns (steps: seq<Step>)
    requires Inv(s) && InProgress(s) && !Doomed(s)
    ensures IsRun(s, steps) && Returned(Exec(s, steps)) && Exec(s, steps).closing == s.closing && PlainRun(steps)
    decreases Remaining(s)
  {
    var step := ProgressStep(s);
    var t := Do(s, step);
    var rest: seq<Step> := [];
    if !Returned(t) {
      InvStep(s, step);
      rest := CanReturn(t);
    }
    steps := [step] + rest;
    assert steps[1..] == rest;
  }

  /** A lock that a destroy went away with is never released. */
  lemma DoomedStep(s: State, step: Step)
    requires Inv(s) && Doomed(s) && Enabled(s, step)
    ensures Doomed(Do(s, step)) && Do(s, step).lock == s.lock
    ensures Returned(Do(s, step)) ==> Returned(s)
  {
    var owner := s.lock.value;
    assert Holds(s, owner) && CallOk(s, owner);
    match step {
      case CreatorStep(act) =>
      case WorkerStep(i, act) => DoomedWorker(s, i, act);
      case CallStep(c, act) =>
        assert CallOk(s, c);
        CallMoved(s, c, act);
        DoomedCall(s, c, act, DoCall(s, c, act));
    }
  }

  lemma DoomedWorker(s: State, i: nat, act: WorkerAct)
    requires LockOk(s) && CloseOk(s) && Doomed(s) && CallOk(s, s.lock.value) && WorkerEnabled(s, i, act)
    ensures var t := DoWorker(s, i, act);
            Doomed(t) && t.lock == s.lock && (Returned(t) ==> Returned(s))
  {
    assert Holds(s, Worker(i)) <==> s.lock == Some(Worker(i));
    assert CallOf(DoWorker(s, i, act), s.lock.value) == CallOf(s, s.lock.value);
  }

  lemma DoomedCall(s: State, c: Tid, act: CallAct, t: State)
    requires LockOk(s) && CreationOk(s) && CallOk(s, c) && Doomed(s)
    requires CallEnabled(s, c, act) && Moved(s, c, act, t)
    ensures Doomed(t) && t.lock == s.lock && (Returned(t) ==> Returned(s))
  {
    assert Holds(s, c) <==> s.lock == Some(c);
    if act.FreePool? { NoneStarted(s); }
  }

  lemma {:induction false} DoomedForever(s: State, steps: seq<Step>)
    requires Inv(s) && Doomed(s) && IsRun(s, steps)
    ensures Doomed(Exec(s, steps)) && Exec(s, steps).lock == s.lock
    ensures Returned(Exec(s, steps)) ==> Returned(s)
    decreases |steps|
  {
    if steps != [] {
      DoomedStep(s, steps[0]);
      InvStep(s, steps[0]);
      DoomedForever(Do(s, steps[0]), steps[1..]);
    }
  }

  /** A destroy in progress can return 0 if and only if the lock is not held by a destroy call that found
      the flag already set, or whose broadcast failed. */
  lemma DestroyReturnsIff(s: State)
    requires Reachable(s) && InProgress(s)
    ensures (exists steps :: IsRun(s, steps) && Returned(Exec(s, steps))) <==> !Doomed(s)
  {
    ReachableInv(s);
    if !Doomed(s) {
      var steps := CanReturn(s);
    } else {
      forall steps | IsRun(s, steps) ensures !Returned(Exec(s, steps)) {
        DoomedForever(s, steps);
      }
    }
  }
}
