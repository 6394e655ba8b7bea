/** What both kinds of shutdown do, over every run. */
module ShutdownTheorems {
  import opened PoolTypes
  import opened PoolMachine
  import opened Weights
  import opened PoolInvariant
  import opened PoolInvariantProof
  import opened PoolRuns
  import opened LifecycleTheorems

  /** The number of occurrences of k is what Below gains from k to k + 1. */
  lemma {:induction false} Occurrences(tickets: seq<nat>, k: nat)
    ensures Below(tickets, k + 1) == Below(tickets, k) + multiset(tickets)[k]
  {
    if tickets != [] {
      var n := |tickets| - 1;
      assert tickets == tickets[..n] + [tickets[n]];
      Occurrences(tickets[..n], k);
    }
  }

  /** The tickets 0, ..., n-1 each occur once and nothing else occurs. */
  ghost predicate EachOnce(tickets: seq<nat>, n: nat) {
    && |tickets| == n
    && forall k: nat :: multiset(tickets)[k] == if k < n then 1 else 0
  }

  /** With no worker carrying a task, every grabbed task has completed, and once only. */
  lemma AllCompleted(s: State)
    requires Inv(s) && forall i :: 0 <= i < |s.workers| ==> !s.workers[i].Grabbed? && !s.workers[i].Busy?
    ensures EachOnce(s.completed, |s.grabbed|)
  {
    SumZero(BusyW, s.workers);
    forall k: nat ensures multiset(s.completed)[k] == if k < |s.grabbed| then 1 else 0 {
      assert TicketOk(s, k) && TicketOk(s, k + 1);
      SumZero(BelowW(k), s.workers);
      SumZero(BelowW(k + 1), s.workers);
      Occurrences(s.completed, k);
    }
  }

  /** A destroy that returns 0 leaves no worker behind and has really freed the pool. */
  lemma DestroyedClean(s: State, tid: Tid)
    requires Reachable(s) && CallOf(s, tid) == DestroyReturned(0)
    ensures forall i :: 0 <= i < |s.workers| ==> s.workers[i].Exited? || s.workers[i].NotCreated?
    ensures AllExited(s, s.mem.threadCount)
    ensures s.mem.started == 0 && s.freed
    ensures s.closing.Some? && s.closing.value.closer == tid
    ensures EachOnce(s.completed, |s.grabbed|)
  {
    ReachableInv(s);
    assert CallOk(s, tid);
    NoneStarted(s);
    AllCompleted(s);
  }

  /** Graceful shutdown: when destroy returns 0, everything accepted before the flag was set has run,
      once, and nothing was accepted after. */
  lemma GracefulDrain(s: State, tid: Tid)
    requires Reachable(s) && CallOf(s, tid) == DestroyReturned(0) && s.mem.shutdown == Graceful
    ensures s.closing.Some? && s.accepted == s.closing.value.accepted
    ensures s.grabbed == s.accepted
    ensures s.mem.count == 0
    ensures EachOnce(s.completed, |s.accepted|)
  {
    ReachableInv(s);
    DestroyedClean(s, tid);
    if s.creator.Created? { assert Leaving(s.workers[0]); }
  }

  /** Immediate shutdown: when destroy returns 0, what ran is what had been grabbed before the flag was
      set, once each, and what was dropped is all the rest of what had been accepted. */
  lemma ImmediateDrop(s: State, tid: Tid)
    requires Reachable(s) && CallOf(s, tid) == DestroyReturned(0) && s.mem.shutdown == Immediate
    ensures s.closing.Some? && s.accepted == s.closing.value.accepted
    ensures s.grabbed == s.closing.value.grabbed
    ensures EachOnce(s.completed, |s.closing.value.grabbed|)
    ensures 0 < |s.mem.queue| && s.accepted == s.closing.value.grabbed + Pending(s.mem)
  {
    ReachableInv(s);
    DestroyedClean(s, tid);
    Conservation(s.mem, s.accepted, s.grabbed);
  }

  /** From the moment the flag says immediate, the ring never changes again, in any run. */
  lemma ImmediateFreeze(s: State, steps: seq<Step>)
    requires Reachable(s) && s.mem.shutdown == Immediate && IsRun(s, steps)
    ensures var t := Exec(s, steps);
            && t.mem.queue == s.mem.queue && t.mem.head == s.mem.head
            && t.mem.tail == s.mem.tail && t.mem.count == s.mem.count
            && t.accepted == s.accepted && t.grabbed == s.grabbed && t.mem.shutdown == Immediate
  {
    ReachableInv(s);
    RunExtends(s, steps);
  }

  /** From the moment the flag is set, nothing more is accepted and the mode stays, in any run. */
  lemma ClosedForGood(s: State, steps: seq<Step>)
    requires Reachable(s) && s.mem.shutdown != Open && IsRun(s, steps)
    ensures var t := Exec(s, steps);
            t.accepted == s.accepted && t.mem.shutdown == s.mem.shutdown && t.mem.count <= s.mem.count
  {
    ReachableInv(s);
    RunExtends(s, steps);
  }

  /** Right after the flag is set every worker that was counted is alive. */
  lemma AllLiveAtFlag(s: State, tid: Tid)
    requires Reachable(s) && CallOf(s, tid) == DestroyBroadcast
    ensures s.closing.Some? && s.mem.shutdown != Open && Sum(LiveW, s.workers) == s.mem.threadCount
    ensures s.mem.count == |s.accepted| - |s.grabbed|
  {
    ReachableInv(s);
    assert CallOk(s, tid);
    LivePrefix(s.workers, s.mem.threadCount);
  }

  lemma NoneLiveAtReturn(s: State, tid: Tid)
    requires Reachable(s) && CallOf(s, tid) == DestroyReturned(0)
    ensures Sum(LiveW, s.workers) == 0
  {
    DestroyedClean(s, tid);
    SumZero(LiveW, s.workers);
  }

  /** The cost of a shutdown does not depend on the schedule: between setting the flag and returning 0
      there are exactly as many grabs as tasks were pending (none if immediate), and one exit per thread. */
  lemma ShutdownCost(s: State, steps: seq<Step>, tid: Tid)
    requires Reachable(s) && CallOf(s, tid) == DestroyBroadcast
    requires IsRun(s, steps) && CallOf(Exec(s, steps), tid) == DestroyReturned(0)
    ensures Grabs(s, steps) == if s.mem.shutdown == Graceful then s.mem.count else 0
    ensures Exits(steps) == s.mem.threadCount
  {
    var t := Exec(s, steps);
    RunFacts(s, steps);
    AllLiveAtFlag(s, tid);
    NoneLiveAtReturn(t, tid);
    ReachableExits(s, steps);
    ClosedForGood(s, steps);
    if s.mem.shutdown == Graceful {
      GracefulDrain(t, tid);
    } else {
      ImmediateFreeze(s, steps);
    }
  }

  lemma ReachableExits(s: State, steps: seq<Step>)
    requires Reachable(s) && s.closing.Some? && IsRun(s, steps)
    ensures Sum(LiveW, Exec(s, steps).workers) + Exits(steps) == Sum(LiveW, s.workers)
  {
    ReachableInv(s);
    ExitsCounted(s, steps);
  }
}
