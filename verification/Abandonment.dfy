/** The destroy that goes away with the lock, what it does to the pool, and the rollback of a failed create. */
module Abandonment {
  import opened PoolTypes
  import opened PoolMachine
  import opened PoolInvariant
  import opened PoolInvariantProof
  import opened PoolRuns
  import opened Progress
  import opened OpenPool
  import opened LifecycleTheorems

  // ---------- A destroy that goes away with the lock ----------

  lemma DestroyUnlocks(s: State, tid: Tid) returns (steps: seq<Step>)
    requires CallEnabled(s, tid, DestroyRun) && s.mem.shutdown == Open && !s.freed
    ensures IsRun(s, steps) && !Holds(Exec(s, steps), tid)
  {
    var s1 := CallRun(s, tid, DestroyRun);
    var s2 := CallRun(s1, tid, BroadcastAll);
    var s3 := CallRun(s2, tid, DestroyRelease);
    var last := [CallStep(tid, DestroyRelease)];
    var second := [CallStep(tid, BroadcastAll)] + last;
    RunStep(s1, CallStep(tid, BroadcastAll), last);
    RunStep(s, CallStep(tid, DestroyRun), second);
    steps := [CallStep(tid, DestroyRun)] + second;
  }

  /** A destroy that owns the lock can release it if and only if the flag was not yet set: the branch for a
      pool already shutting down leaves without unlocking, and then nobody ever gets the lock again. */
  lemma DestroyUnlocksIff(s: State, tid: Tid)
    requires Reachable(s) && CallOf(s, tid).DestroyBody?
    ensures (exists steps :: IsRun(s, steps) && !Holds(Exec(s, steps), tid)) <==> s.mem.shutdown == Open
    ensures s.mem.shutdown != Open ==>
              forall steps :: IsRun(s, steps) ==> Exec(s, steps).lock == Some(tid)
  {
    ReachableInv(s);
    assert Holds(s, tid) <==> s.lock == Some(tid);
    if s.mem.shutdown == Open {
      var steps := DestroyUnlocks(s, tid);
    } else {
      forall steps | IsRun(s, steps)
        ensures Exec(s, steps).lock == Some(tid) && Holds(Exec(s, steps), tid)
      {
        DoomedForever(s, steps);
        InvRun(s, steps);
        assert Holds(Exec(s, steps), tid) <==> Exec(s, steps).lock == Some(tid);
      }
    }
  }

  /** No worker takes or leaves, and no task is accepted, once the lock has been abandoned. */
  lemma AbandonedPoolIsDead(s: State, steps: seq<Step>)
    requires Reachable(s) && Doomed(s) && IsRun(s, steps)
    ensures Exec(s, steps).grabbed == s.grabbed && Exec(s, steps).accepted == s.accepted
    ensures Exits(steps) == 0
  {
    ReachableInv(s);
    AbandonedRun(s, steps);
  }

  lemma {:induction false} AbandonedRun(s: State, steps: seq<Step>)
    requires Inv(s) && Doomed(s) && IsRun(s, steps)
    ensures Exec(s, steps).grabbed == s.grabbed && Exec(s, steps).accepted == s.accepted
    ensures Exits(steps) == 0
    decreases |steps|
  {
    if steps != [] {
      var step := steps[0];
      DoomedStep(s, step);
      InvStep(s, step);
      AbandonedStep(s, step);
      AbandonedRun(Do(s, step), steps[1..]);
    }
  }

  lemma AbandonedStep(s: State, step: Step)
    requires Inv(s) && Doomed(s) && Enabled(s, step)
    ensures Do(s, step).grabbed == s.grabbed && Do(s, step).accepted == s.accepted && !IsExit(step)
  {
    assert Holds(s, s.lock.value) && CallOk(s, s.lock.value);
    match step {
      case CreatorStep(act) =>
      case WorkerStep(i, act) => WorkDiscipline(s, i, act);
      case CallStep(c, act) =>
        CallMoved(s, c, act);
        CallDiscipline(s, c, act, DoCall(s, c, act));
    }
  }

  // ---------- Rollback of a failed create ----------

  /** A rollback can be doomed only by its own failed broadcast: no other destroy can get in its way. */
  lemma RollbackDoomedOnlyByBroadcast(s: State)
    requires Reachable(s) && s.creator.RollingBack? && Doomed(s)
    ensures s.creator.call == ReturnedHolding(LOCK_FAILURE)
    ensures s.lock == Some(Creator)
  {
    ReachableInv(s);
    assert CallOk(s, s.lock.value) && Holds(s, s.lock.value);
  }

  /** Whichever thread fails to start, create can finish its rollback: from there some run ends with NULL
      returned, all threads made so far exited, and the pool freed. */
  lemma FailedCreateCanFinish(s: State)
    requires Reachable(s) && CreatorEnabled(s, SpawnFails)
    ensures exists steps :: IsRun(DoCreator(s, SpawnFails), steps) && PlainRun(steps)
                            && var t := Exec(DoCreator(s, SpawnFails), steps);
                               && t.freed && t.creator == RollingBack(s.creator.next, DestroyReturned(0))
                               && AllExited(t, s.creator.next) && t.mem.started == 0
  {
    ReachableInv(s);
    InvCreator(s, SpawnFails);
    var t := DoCreator(s, SpawnFails);
    assert CallOk(t, Creator);
    var steps := DestroyFrom(t, Creator);
    RollbackKeepsNext(t, steps);
    InvRun(t, steps);
    assert CallOk(Exec(t, steps), Creator);
    NoneStarted(Exec(t, steps));
  }

  lemma {:induction false} RollbackKeepsNext(s: State, steps: seq<Step>)
    requires s.creator.RollingBack? && IsRun(s, steps)
    ensures Exec(s, steps).creator.RollingBack? && Exec(s, steps).creator.next == s.creator.next
    decreases |steps|
  {
    if steps != [] {
      if steps[0].CallStep? { CallMoved(s, steps[0].tid, steps[0].act); }
      RollbackKeepsNext(Do(s, steps[0]), steps[1..]);
    }
  }
}
