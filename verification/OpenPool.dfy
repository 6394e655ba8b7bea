/** Progress while the pool is open: the lock comes free, pending tasks get taken, and a destroy gets through. */
module OpenPool {
  import opened PoolTypes
  import opened PoolMachine
  import opened Weights
  import opened PoolInvariant
  import opened PoolInvariantProof
  import opened PoolRuns
  import opened ShutdownTheorems
  import opened Progress

  /** A destroy owns the lock and has yet to look at the flag. */
  predicate DestroyOwns(s: State) {
    s.lock.Some? && CallOf(s, s.lock.value).DestroyBody?
  }

  /** How many steps the owner still has to take until it releases the lock of an open pool. */
  function UnlockRank(s: State): nat {
    if s.lock == None then 0 else
    match CallOf(s, s.lock.value)
    case AddBody(_) => 3
    case AddSignal(_, _) => 2
    case AddUnlock(_, _, _) => 1
    case _ =>
      if s.lock.value.Worker? && s.lock.value.i < |s.workers| && s.workers[s.lock.value.i].Testing? then 2 else 1
  }

  /** From s to t no call but the owner's moves, no worker falls asleep but the owner, and no task is dropped. */
  ghost predicate Calmly(s: State, t: State) {
    && t.mem.shutdown == Open && t.failedSignals == s.failedSignals && t.closing == s.closing && t.freed == s.freed
    && |t.workers| == |s.workers| && Extends(s, t)
    && (forall o: Tid :: Some(o) != s.lock && Caller(s, o) ==> Caller(t, o) && CallOf(t, o) == CallOf(s, o))
    && (forall j :: 0 <= j < |s.workers| && s.workers[j].Busy? ==>
          t.workers[j].Busy? && (t.workers[j].call == s.workers[j].call || !t.workers[j].call.AddLock?))
  }

  /** The next step of the owner. */
  lemma OwnerMoves(s: State) returns (step: Step)
    requires Inv(s) && s.mem.shutdown == Open && s.lock.Some? && !DestroyOwns(s)
    ensures Enabled(s, step) && Plain(step)
    ensures var t := Do(s, step);
            && (t.lock == None || (t.lock == s.lock && UnlockRank(t) < UnlockRank(s) && !DestroyOwns(t)))
            && Calmly(s, t)
  {
    var tid := s.lock.value;
    assert Holds(s, tid) && CallOk(s, tid);
    if tid.Worker? && !s.workers[tid.i].Busy? {
      var act := if s.workers[tid.i].Testing? then Test else GrabRelease;
      step := WorkerStep(tid.i, act);
      OwnerWorks(s, tid.i, act);
    } else {
      var act;
      match CallOf(s, tid) {
        case AddBody(_) => act := AddRun;
        case AddSignal(_, _) =>
          if i: nat :| i < |s.workers| && s.workers[i].Asleep? {
            act := SignalWakes(i);
          } else {
            act := SignalNobody;
          }
        case _ => act := AddRelease;
      }
      step := CallStep(tid, act);
      CallMoved(s, tid, act);
      OwnerCalls(s, tid, act, DoCall(s, tid, act));
    }
  }

  lemma OwnerWorks(s: State, i: nat, act: WorkerAct)
    requires LockOk(s) && CloseOk(s) && WorkerEnabled(s, i, act) && (act.Test? || act.GrabRelease?)
    requires s.mem.shutdown == Open && s.lock == Some(Worker(i))
    ensures var t := DoWorker(s, i, act);
            && (t.lock == None || (t.lock == s.lock && UnlockRank(t) < UnlockRank(s) && !DestroyOwns(t)))
            && Calmly(s, t)
  {
    var t := DoWorker(s, i, act);
    WorkerExtends(s, i, act);
    assert forall o: Tid :: o != Worker(i) ==> CallOf(t, o) == CallOf(s, o) && Caller(t, o) == Caller(s, o);
  }

  lemma OwnerCalls(s: State, c: Tid, act: CallAct, t: State)
    requires CloseOk(s) && CallOk(s, c) && CallEnabled(s, c, act) && Moved(s, c, act, t)
    requires act.AddRun? || act.SignalWakes? || act.SignalNobody? || act.AddRelease?
    requires s.mem.shutdown == Open && s.lock == Some(c)
    ensures t.lock == None || (t.lock == s.lock && UnlockRank(t) < UnlockRank(s) && !DestroyOwns(t))
    ensures Calmly(s, t)
  {
    CallGlobals(s, c, act, t);
    assert forall j :: 0 <= j < |s.workers| && s.workers[j].Busy? && Worker(j) != c ==>
        t.workers[j].call == CallOf(t, Worker(j)) == CallOf(s, Worker(j)) == s.workers[j].call;
  }

  lemma CalmlyTwice(s: State, t: State, u: State)
    requires Calmly(s, t) && Calmly(t, u) && (t.lock == s.lock || t.lock == None)
    ensures Calmly(s, u)
  {
  }

  /** An open pool's lock comes free by the owner's own steps, unless a destroy owns it. */
  lemma {:induction false} UnlockRun(s: State) returns (steps: seq<Step>)
    requires Inv(s) && s.mem.shutdown == Open && !DestroyOwns(s)
    ensures IsRun(s, steps) && PlainRun(steps)
    ensures Exec(s, steps).lock == None && Inv(Exec(s, steps)) && Calmly(s, Exec(s, steps))
    decreases UnlockRank(s), s.lock.Some?
  {
    steps := [];
    if s.lock.Some? {
      var step := OwnerMoves(s);
      var t := Do(s, step);
      InvStep(s, step);
      var rest := UnlockRun(t);
      RunStep(s, step, rest);
      steps := [step] + rest;
      CalmlyTwice(s, t, Exec(t, rest));
    }
  }

  // ---------- Pending tasks get taken ----------

  predicate Ready(s: State) {
    s.mem.shutdown == Open && s.lock == None && s.failedSignals == 0
  }

  /** A worker that is awake, without a signal and without a new call. */
  lemma AwakeWorker(s: State) returns (i: nat)
    requires Inv(s) && Ready(s) && s.mem.count > 0
    ensures i < |s.workers| && !s.workers[i].Asleep?
  {
    SumZero(AsleepW, s.workers);
    SumZero(AlertW, s.workers);
    assert exists i: nat :: i < |s.workers| && !s.workers[i].Asleep? by {
      if s.workers[0].Asleep? {
        assert Weigh(AsleepW, s.workers[0]) != 0;
        var i :| 0 <= i < |s.workers| && Weigh(AlertW, s.workers[i]) != 0;
      }
    }
    i :| i < |s.workers| && !s.workers[i].Asleep?;
  }

  lemma WorkerRun(s: State, i: nat, act: WorkerAct) returns (t: State)
    requires Inv(s) && WorkerEnabled(s, i, act) && !act.WakeUp?
    ensures t == DoWorker(s, i, act) && Inv(t) && IsRun(s, [WorkerStep(i, act)])
    ensures Exec(s, [WorkerStep(i, act)]) == t && Plain(WorkerStep(i, act))
  {
    t := DoWorker(s, i, act);
    InvWorker(s, i, act);
    RunStep(s, WorkerStep(i, act), []);
    assert [WorkerStep(i, act)] + [] == [WorkerStep(i, act)];
  }

  /** A worker that wants the lock takes a task. */
  lemma TakeRun(s: State, i: nat) returns (steps: seq<Step>)
    requires Inv(s) && Ready(s) && s.mem.count > 0
    requires i < |s.workers| && (s.workers[i].AtLock? || s.workers[i].Woken?)
    ensures IsRun(s, steps) && PlainRun(steps)
    ensures Ready(Exec(s, steps)) && Inv(Exec(s, steps)) && |Exec(s, steps).grabbed| == |s.grabbed| + 1
  {
    var s1 := WorkerRun(s, i, Acquire);
    var s2 := WorkerRun(s1, i, Test);
    var s3 := WorkerRun(s2, i, GrabRelease);
    var last := [WorkerStep(i, GrabRelease)];
    RunStep(s1, WorkerStep(i, Test), last);
    RunStep(s, WorkerStep(i, Acquire), [WorkerStep(i, Test)] + last);
    steps := [WorkerStep(i, Acquire)] + ([WorkerStep(i, Test)] + last);
  }

  /** A worker whose task is at rest finishes it and takes the next. */
  lemma FinishRun(s: State, i: nat) returns (steps: seq<Step>)
    requires Inv(s) && Ready(s) && s.mem.count > 0
    requires i < |s.workers| && s.workers[i].Busy? && Resting(s.workers[i].call)
    ensures IsRun(s, steps) && PlainRun(steps)
    ensures Ready(Exec(s, steps)) && Inv(Exec(s, steps)) && |Exec(s, steps).grabbed| > |s.grabbed|
  {
    var t := WorkerRun(s, i, FinishTask);
    var rest := TakeRun(t, i);
    RunStep(s, WorkerStep(i, FinishTask), rest);
    steps := [WorkerStep(i, FinishTask)] + rest;
  }

  /** A worker that owns the lock in an add of its task ends that add. */
  lemma AddEnds(s: State, i: nat) returns (steps: seq<Step>)
    requires Inv(s) && s.mem.shutdown == Open && s.failedSignals == 0 && s.lock == Some(Worker(i))
    requires i < |s.workers| && s.workers[i].Busy? && s.workers[i].call.AddBody?
    ensures IsRun(s, steps) && PlainRun(steps)
    ensures var u := Exec(s, steps);
            && Ready(u) && Inv(u) && Extends(s, u) && i < |u.workers|
            && u.workers[i].Busy? && Resting(u.workers[i].call)
  {
    steps := UnlockRun(s);
    var u := Exec(s, steps);
    assert !Holds(u, Worker(i)) && CallOk(u, Worker(i));
    assert CallOf(u, Worker(i)) == u.workers[i].call;
  }

  lemma WorkerLocks(s: State, i: nat) returns (t: State)
    requires Inv(s) && Ready(s) && i < |s.workers| && s.workers[i].Busy? && s.workers[i].call.AddLock?
    ensures CallEnabled(s, Worker(i), TakeLock) && t == DoCall(s, Worker(i), TakeLock) && Inv(t)
    ensures t.mem == s.mem && t.failedSignals == s.failedSignals && t.lock == Some(Worker(i))
    ensures t.accepted == s.accepted && t.grabbed == s.grabbed && |t.workers| == |s.workers|
    ensures t.workers[i].Busy? && t.workers[i].call.AddBody?
  {
    t := DoCall(s, Worker(i), TakeLock);
    InvCall(s, Worker(i), TakeLock);
  }

  /** Then it finishes, and takes the next task if nobody else did. */
  lemma AddEndsAndTakes(s: State, i: nat) returns (steps: seq<Step>)
    requires Inv(s) && s.mem.shutdown == Open && s.failedSignals == 0 && s.lock == Some(Worker(i)) && s.mem.count > 0
    requires i < |s.workers| && s.workers[i].Busy? && s.workers[i].call.AddBody?
    ensures IsRun(s, steps) && PlainRun(steps)
    ensures Ready(Exec(s, steps)) && Inv(Exec(s, steps)) && |Exec(s, steps).grabbed| > |s.grabbed|
  {
    steps := AddEnds(s, i);
    var u := Exec(s, steps);
    if |u.grabbed| == |s.grabbed| {
      var rest := FinishRun(u, i);
      RunConcat(s, steps, rest);
      steps := steps + rest;
    }
  }

  /** A worker whose task is about to add gets the lock, ends the add, and a task gets taken. */
  lemma AddingRun(s: State, i: nat) returns (steps: seq<Step>)
    requires Inv(s) && Ready(s) && s.mem.count > 0
    requires i < |s.workers| && s.workers[i].Busy? && s.workers[i].call.AddLock?
    ensures IsRun(s, steps) && PlainRun(steps)
    ensures Ready(Exec(s, steps)) && Inv(Exec(s, steps)) && |Exec(s, steps).grabbed| > |s.grabbed|
  {
    var t := WorkerLocks(s, i);
    steps := AddEndsAndTakes(t, i);
    RunStep(s, CallStep(Worker(i), TakeLock), steps);
    steps := [CallStep(Worker(i), TakeLock)] + steps;
  }

  /** One more task gets taken, by no more than what workers and calls in progress do anyway. */
  lemma GrabRun(s: State) returns (steps: seq<Step>)
    requires Inv(s) && Ready(s) && s.mem.count > 0
    ensures IsRun(s, steps) && PlainRun(steps)
    ensures Ready(Exec(s, steps)) && Inv(Exec(s, steps)) && |Exec(s, steps).grabbed| > |s.grabbed|
  {
    var i := AwakeWorker(s);
    assert !Holds(s, Worker(i)) && CallOk(s, Worker(i));
    var pc := s.workers[i];
    if pc.AtLock? || pc.Woken? {
      steps := TakeRun(s, i);
    } else {
      assert pc.Busy? && CallOf(s, Worker(i)) == pc.call;
      if Resting(pc.call) {
        steps := FinishRun(s, i);
      } else {
        steps := AddingRun(s, i);
      }
    }
  }

  lemma {:induction false} TakeUpTo(s: State, k: nat) returns (steps: seq<Step>)
    requires Inv(s) && Ready(s) && k < |s.accepted|
    ensures IsRun(s, steps) && PlainRun(steps) && |Exec(s, steps).grabbed| > k
    decreases k + 1 - |s.grabbed|
  {
    steps := [];
    if |s.grabbed| <= k {
      var first := GrabRun(s);
      var t := Exec(s, first);
      RunExtends(s, first);
      var rest := TakeUpTo(t, k);
      RunConcat(s, first, rest);
      steps := first + rest;
    }
  }

  // ---------- A destroy that is about to take the lock ----------

  lemma SetFlag(s: State, tid: Tid) returns (t: State)
    requires Inv(s) && s.mem.shutdown == Open && s.lock == Some(tid) && CallOf(s, tid).DestroyBody?
    ensures CallEnabled(s, tid, DestroyRun) && t == DoCall(s, tid, DestroyRun) && Inv(t)
    ensures InProgress(t) && !Doomed(t) && t.closing.value.closer == tid
    ensures t.mem.shutdown == ModeOf(CallOf(s, tid).flags)
  {
    t := DoCall(s, tid, DestroyRun);
    InvCall(s, tid, DestroyRun);
    CallMoved(s, tid, DestroyRun);
  }

  lemma CloseRun(s: State, tid: Tid) returns (steps: seq<Step>)
    requires Inv(s) && s.mem.shutdown == Open && s.lock == Some(tid) && CallOf(s, tid).DestroyBody?
    ensures IsRun(s, steps) && PlainRun(steps)
    ensures CallOf(Exec(s, steps), tid) == DestroyReturned(0)
    ensures Exec(s, steps).mem.shutdown == ModeOf(CallOf(s, tid).flags)
  {
    var t := SetFlag(s, tid);
    var rest := CanReturn(t);
    RunStep(s, CallStep(tid, DestroyRun), rest);
    steps := [CallStep(tid, DestroyRun)] + rest;
    RunExtends(t, rest);
  }

  lemma LockedDestroyRun(s: State, tid: Tid) returns (steps: seq<Step>)
    requires Inv(s) && CallOf(s, tid).DestroyLock? && s.mem.shutdown == Open && s.lock == None
    ensures IsRun(s, steps) && PlainRun(steps) && CallOf(Exec(s, steps), tid) == DestroyReturned(0)
  {
    var u := CallRun(s, tid, TakeLock);
    CallMoved(s, tid, TakeLock);
    InvCall(s, tid, TakeLock);
    var rest := CloseRun(u, tid);
    RunStep(s, CallStep(tid, TakeLock), rest);
    steps := [CallStep(tid, TakeLock)] + rest;
  }

  /** A destroy that is about to take the lock of an open pool that no other destroy owns can return 0. */
  lemma DestroyFrom(s: State, tid: Tid) returns (steps: seq<Step>)
    requires Inv(s) && CallOf(s, tid).DestroyLock? && s.mem.shutdown == Open && !DestroyOwns(s)
    ensures IsRun(s, steps) && PlainRun(steps) && CallOf(Exec(s, steps), tid) == DestroyReturned(0)
  {
    assert Holds(s, tid) <==> s.lock == Some(tid);
    var first := UnlockRun(s);
    var rest := LockedDestroyRun(Exec(s, first), tid);
    RunConcat(s, first, rest);
    steps := first + rest;
  }

  // ---------- When a pending task can be taken ----------

  /** An immediate destroy is about to set the flag, and nobody can take a task before it does. */
  predicate Dropping(s: State) {
    s.mem.shutdown == Open && DestroyOwns(s) && ModeOf(CallOf(s, s.lock.value).flags) == Immediate
  }

  lemma DroppingCall(s: State, c: Tid, act: CallAct, t: State)
    requires LockOk(s) && (Dropping(s) || s.mem.shutdown == Immediate) && CallEnabled(s, c, act) && Moved(s, c, act, t)
    ensures t.grabbed == s.grabbed && (Dropping(t) || t.mem.shutdown == Immediate)
  {
    assert Holds(s, c) <==> s.lock == Some(c);
  }

  lemma DroppingWorker(s: State, i: nat, act: WorkerAct)
    requires LockOk(s) && (Dropping(s) || s.mem.shutdown == Immediate) && WorkerEnabled(s, i, act)
    ensures var t := DoWorker(s, i, act);
            t.grabbed == s.grabbed && (Dropping(t) || t.mem.shutdown == Immediate)
  {
    assert Holds(s, Worker(i)) <==> s.lock == Some(Worker(i));
    WorkerCalls(s, i, act);
  }

  lemma DroppingStep(s: State, step: Step)
    requires Inv(s) && (Dropping(s) || s.mem.shutdown == Immediate) && Enabled(s, step)
    ensures var t := Do(s, step);
            t.grabbed == s.grabbed && (Dropping(t) || t.mem.shutdown == Immediate)
  {
    match step {
      case CreatorStep(act) =>
      case WorkerStep(i, act) => DroppingWorker(s, i, act);
      case CallStep(c, act) =>
        CallMoved(s, c, act);
        DroppingCall(s, c, act, DoCall(s, c, act));
    }
  }

  lemma {:induction false} DroppingRun(s: State, steps: seq<Step>)
    requires Inv(s) && (Dropping(s) || s.mem.shutdown == Immediate) && IsRun(s, steps)
    ensures Exec(s, steps).grabbed == s.grabbed
    decreases |steps|
  {
    if steps != [] {
      DroppingStep(s, steps[0]);
      InvStep(s, steps[0]);
      DroppingRun(Do(s, steps[0]), steps[1..]);
    }
  }

  /** A graceful destroy that owns the lock still runs every pending task. */
  lemma DrainRun(s: State) returns (steps: seq<Step>)
    requires Reachable(s) && s.mem.shutdown == Open && DestroyOwns(s) && !Dropping(s)
    ensures IsRun(s, steps) && PlainRun(steps) && |Exec(s, steps).grabbed| >= |s.accepted|
  {
    ReachableInv(s);
    steps := CloseRun(s, s.lock.value);
    RunFacts(s, steps);
    GracefulDrain(Exec(s, steps), s.lock.value);
  }

  /** In an open pool in which no signal failed, each pending task can be taken, without failures, spurious
      wake-ups or new calls, if and only if no immediate destroy already owns the lock. */
  lemma PendingTaskIff(s: State, k: nat)
    requires Reachable(s) && s.mem.shutdown == Open && s.failedSignals == 0 && |s.grabbed| <= k < |s.accepted|
    ensures (exists steps :: IsRun(s, steps) && PlainRun(steps) && |Exec(s, steps).grabbed| > k) <==> !Dropping(s)
  {
    ReachableInv(s);
    if Dropping(s) {
      forall steps | IsRun(s, steps) ensures |Exec(s, steps).grabbed| <= k { DroppingRun(s, steps); }
    } else if DestroyOwns(s) {
      var steps := DrainRun(s);
    } else {
      var first := UnlockRun(s);
      var rest := TakeUpTo(Exec(s, first), k);
      RunConcat(s, first, rest);
      var steps := first + rest;
      assert IsRun(s, steps) && PlainRun(steps);
    }
  }

  // ---------- When a destroy can return 0 ----------

  /** The destroy has set the flag itself and met no error, or has returned 0. */
  predicate Succeeding(call: Call) {
    call.DestroyBroadcast? || call.DestroyUnlock? || call.DestroyJoin? || call.DestroyFree?
    || call == DestroyReturned(0)
  }

  /** The flag was set by another call, or another destroy owns the lock and will set it. */
  predicate TooLate(s: State, tid: Tid) {
    && !Succeeding(CallOf(s, tid))
    && (s.mem.shutdown != Open || (DestroyOwns(s) && s.lock != Some(tid)))
  }

  lemma TooLateStep(s: State, step: Step, tid: Tid)
    requires LockOk(s) && CreationOk(s) && TooLate(s, tid) && Enabled(s, step)
    ensures TooLate(Do(s, step), tid)
  {
    match step {
      case CreatorStep(act) => assert s.lock.Some? ==> Holds(s, s.lock.value);
      case WorkerStep(i, act) => TooLateWorker(s, i, act, tid);
      case CallStep(c, act) =>
        assert Holds(s, c) <==> s.lock == Some(c);
        CallMoved(s, c, act);
        TooLateCall(s, c, act, DoCall(s, c, act), tid);
    }
  }

  lemma TooLateWorker(s: State, i: nat, act: WorkerAct, tid: Tid)
    requires LockOk(s) && TooLate(s, tid) && WorkerEnabled(s, i, act)
    ensures TooLate(DoWorker(s, i, act), tid)
  {
    assert Holds(s, Worker(i)) <==> s.lock == Some(Worker(i));
    WorkerCalls(s, i, act);
  }

  lemma TooLateCall(s: State, c: Tid, act: CallAct, t: State, tid: Tid)
    requires LockOk(s) && TooLate(s, tid) && CallEnabled(s, c, act) && Moved(s, c, act, t)
    ensures TooLate(t, tid)
  {
    assert Holds(s, c) <==> s.lock == Some(c);
    if c == tid { TooLateSelf(s, tid, act, t); }
  }

  lemma TooLateSelf(s: State, tid: Tid, act: CallAct, t: State)
    requires TooLate(s, tid) && CallEnabled(s, tid, act) && Moved(s, tid, act, t)
    requires CallHolds(CallOf(s, tid)) ==> s.lock == Some(tid)
    ensures TooLate(t, tid)
  {
  }

  lemma {:induction false} TooLateRun(s: State, steps: seq<Step>, tid: Tid)
    requires Inv(s) && TooLate(s, tid) && IsRun(s, steps)
    ensures TooLate(Exec(s, steps), tid)
    decreases |steps|
  {
    if steps != [] {
      TooLateStep(s, steps[0], tid);
      InvStep(s, steps[0]);
      TooLateRun(Do(s, steps[0]), steps[1..], tid);
    }
  }

  /** A destroy that has yet to take the lock can return 0 if and only if the flag is unset and no other
      destroy owns the lock; and then it can do so without failures, spurious wake-ups or new calls. */
  lemma DestroyCompletesIff(s: State, tid: Tid)
    requires Reachable(s) && CallOf(s, tid).DestroyLock?
    ensures (exists steps :: IsRun(s, steps) && PlainRun(steps) && CallOf(Exec(s, steps), tid) == DestroyReturned(0))
            <==> s.mem.shutdown == Open && !DestroyOwns(s)
    ensures (exists steps :: IsRun(s, steps) && CallOf(Exec(s, steps), tid) == DestroyReturned(0))
            <==> s.mem.shutdown == Open && !DestroyOwns(s)
  {
    ReachableInv(s);
    if s.mem.shutdown == Open && !DestroyOwns(s) {
      var steps := DestroyFrom(s, tid);
    } else {
      assert TooLate(s, tid);
      forall steps | IsRun(s, steps) ensures CallOf(Exec(s, steps), tid) != DestroyReturned(0) {
        TooLateRun(s, steps, tid);
      }
    }
  }
}
