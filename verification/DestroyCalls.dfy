/** What one call of destroy does and returns, in terms of the flags its caller passed, in every run. */
module DestroyCalls {
  import opened PoolTypes
  import opened PoolMachine
  import opened PoolInvariant
  import opened PoolInvariantProof
  import opened PoolRuns
  import opened ShutdownTheorems

  function OwnJoinFailure(step: Step, tid: Tid): nat {
    if OwnStep(step, tid) && step.act.JoinFails? then 1 else 0
  }

  /** How many of the thread's own joins fail. */
  function OwnJoinFailures(steps: seq<Step>, tid: Tid): nat {
    if steps == [] then 0 else OwnJoinFailure(steps[0], tid) + OwnJoinFailures(steps[1..], tid)
  }

  /** The flag was set by the call of this thread that found the pool open, or not, when it began. */
  predicate SetIt(s: State, tid: Tid, open: bool) {
    open && Closer(s, tid)
  }

  predicate AsAsked(s: State, flags: int) {
    s.mem.shutdown == if flags % 2 == 1 then Graceful else Immediate
  }

  /** What a destroy with these flags has done when it stands there. */
  predicate Told(s: State, tid: Tid, flags: int, open: bool, failures: nat) {
    var done := SetIt(s, tid, open) && AsAsked(s, flags);
    match CallOf(s, tid)
    case DestroyLock(f) => f == flags && !SetIt(s, tid, open) && failures == 0 && (s.mem.shutdown == Open ==> open)
    case DestroyBody(f) => f == flags && !SetIt(s, tid, open) && failures == 0 && (s.mem.shutdown == Open ==> open)
    case DestroyBroadcast => done && failures == 0
    case DestroyUnlock => done && failures == 0
    case DestroyJoin(_, err) => done && err == if failures == 0 then 0 else -5
    case DestroyFree => done && failures == 0
    case DestroyReturned(err) =>
      if err == -2 then !SetIt(s, tid, open) && failures == 0 else done && err == if failures == 0 then 0 else -5
    case ReturnedHolding(err) =>
      failures == 0 && if err == -4 then !SetIt(s, tid, open) else err == -2 && done
    case _ => false
  }

  lemma ToldOwn(s: State, c: Tid, act: CallAct, t: State, flags: int, open: bool, failures: nat)
    requires CloseOk(s) && CallEnabled(s, c, act) && Moved(s, c, act, t) && !act.StartAdd? && !act.StartDestroy?
    requires Told(s, c, flags, open, failures)
    ensures Told(t, c, flags, open, failures + OwnJoinFailure(CallStep(c, act), c))
  {
  }

  lemma ToldOther(s: State, c: Tid, act: CallAct, t: State, tid: Tid, flags: int, open: bool, failures: nat)
    requires CloseOk(s) && CallEnabled(s, c, act) && Moved(s, c, act, t) && c != tid
    requires Told(s, tid, flags, open, failures)
    ensures Told(t, tid, flags, open, failures)
  {
  }

  lemma ToldStep(s: State, step: Step, tid: Tid, flags: int, open: bool, failures: nat)
    requires CloseOk(s) && Enabled(s, step) && StartsNothing([step], tid) && tid.Client?
    requires Told(s, tid, flags, open, failures)
    ensures Told(Do(s, step), tid, flags, open, failures + OwnJoinFailure(step, tid))
  {
    assert !OwnStep([step][0], tid) || (!step.act.StartAdd? && !step.act.StartDestroy?);
    match step {
      case CreatorStep(act) =>
      case WorkerStep(i, act) => WorkerCalls(s, i, act);
      case CallStep(c, act) =>
        CallMoved(s, c, act);
        var t := DoCall(s, c, act);
        if c == tid {
          ToldOwn(s, c, act, t, flags, open, failures);
        } else {
          ToldOther(s, c, act, t, tid, flags, open, failures);
        }
    }
  }

  lemma {:induction false} ToldRun(s: State, steps: seq<Step>, tid: Tid, flags: int, open: bool, failures: nat)
    requires Inv(s) && IsRun(s, steps) && StartsNothing(steps, tid) && tid.Client?
    requires Told(s, tid, flags, open, failures)
    ensures Told(Exec(s, steps), tid, flags, open, failures + OwnJoinFailures(steps, tid))
    decreases |steps|
  {
    if steps != [] {
      var step, rest := steps[0], steps[1..];
      assert StartsNothing([step], tid) && StartsNothing(rest, tid);
      InvStep(s, step);
      ToldStep(s, step, tid, flags, open, failures);
      ToldRun(Do(s, step), rest, tid, flags, open, failures + OwnJoinFailure(step, tid));
    }
  }

  lemma ToldFrom(s: State, tid: Tid, flags: int, steps: seq<Step>)
    requires Reachable(s) && CallEnabled(s, tid, StartDestroy(flags))
    requires IsRun(DoCall(s, tid, StartDestroy(flags)), steps) && StartsNothing(steps, tid)
    ensures Told(Exec(DoCall(s, tid, StartDestroy(flags)), steps), tid, flags, s.mem.shutdown == Open,
                 OwnJoinFailures(steps, tid))
  {
    ReachableInv(s);
    CallMoved(s, tid, StartDestroy(flags));
    InvStep(s, CallStep(tid, StartDestroy(flags)));
    ToldRun(DoCall(s, tid, StartDestroy(flags)), steps, tid, flags, s.mem.shutdown == Open, 0);
  }

  /** Every return code of destroy, from the call to its return; sets tells whether this call set the flag: then the
      mode is the one its flags ask for, and the code is 0 if all its joins succeeded, -5 if one failed, or -2 if its
      broadcast failed, which keeps the lock. Otherwise the code is -2 if it never got the lock, and -4 if it got the
      lock of a pool that was shutting down already, and keeps it. */
  lemma DestroyCodes(s: State, tid: Tid, flags: int, steps: seq<Step>)
    requires Reachable(s) && CallEnabled(s, tid, StartDestroy(flags))
    requires IsRun(DoCall(s, tid, StartDestroy(flags)), steps) && StartsNothing(steps, tid)
    requires var call := CallOf(Exec(DoCall(s, tid, StartDestroy(flags)), steps), tid);
             call.DestroyReturned? || call.ReturnedHolding?
    ensures var t := Exec(DoCall(s, tid, StartDestroy(flags)), steps);
            var call, sets := CallOf(t, tid), s.mem.shutdown == Open && Closer(t, tid);
            && (sets ==> t.mem.shutdown == if flags % 2 == 1 then Graceful else Immediate)
            && (call.DestroyReturned? ==>
                  call.err == if !sets then -2 else if OwnJoinFailures(steps, tid) == 0 then 0 else -5)
            && (call.ReturnedHolding? ==>
                  call.err == (if sets then -2 else -4) && t.lock == Some(tid) && t.mem.shutdown != Open)
            && (t.freed && sets <==> call == DestroyReturned(0))
  {
    var t := Exec(DoCall(s, tid, StartDestroy(flags)), steps);
    ToldFrom(s, tid, flags, steps);
    ReachableStep(s, CallStep(tid, StartDestroy(flags)));
    ReachableRun(DoCall(s, tid, StartDestroy(flags)), steps);
    ReachableInv(t);
    assert CallOk(t, tid);
    assert Holds(t, tid) <==> t.lock == Some(tid);
  }

  // ---------- A destroy that returns 0 ----------

  predicate Ended(call: Call) {
    call.DestroyReturned? || call.ReturnedHolding?
  }

  lemma OneStep(s: State, step: Step, tid: Tid)
    requires Enabled(s, step) && StartsNothing([step], tid) && tid.Client?
    ensures Ended(CallOf(s, tid)) ==> CallOf(Do(s, step), tid) == CallOf(s, tid)
    ensures BeforeFlag(CallOf(s, tid)) ==>
              var call := CallOf(Do(s, step), tid);
              || BeforeFlag(call) || (Ended(call) && call.err != 0)
              || (call.DestroyBroadcast? && step == CallStep(tid, DestroyRun) && s.mem.shutdown == Open)
  {
    assert !OwnStep([step][0], tid) || (!step.act.StartAdd? && !step.act.StartDestroy?);
    match step {
      case CreatorStep(act) =>
      case WorkerStep(i, act) => WorkerCalls(s, i, act);
      case CallStep(c, act) => CallMoved(s, c, act);
    }
  }

  lemma {:induction false} EndedStays(s: State, steps: seq<Step>, tid: Tid)
    requires IsRun(s, steps) && StartsNothing(steps, tid) && tid.Client? && Ended(CallOf(s, tid))
    ensures CallOf(Exec(s, steps), tid) == CallOf(s, tid)
    decreases |steps|
  {
    if steps != [] {
      assert StartsNothing([steps[0]], tid) && StartsNothing(steps[1..], tid);
      OneStep(s, steps[0], tid);
      EndedStays(Do(s, steps[0]), steps[1..], tid);
    }
  }

  /** The run from a consists of these steps, then the one in which the thread sets the flag, then the rest. */
  predicate SetsFlagAfter(a: State, tid: Tid, before: seq<Step>, rest: seq<Step>) {
    && IsRun(a, before)
    && CallEnabled(Exec(a, before), tid, DestroyRun) && Exec(a, before).mem.shutdown == Open
    && IsRun(DoCall(Exec(a, before), tid, DestroyRun), rest)
  }

  lemma {:induction false} FlagSplit(a: State, tid: Tid, steps: seq<Step>) returns (before: seq<Step>, rest: seq<Step>)
    requires IsRun(a, steps) && StartsNothing(steps, tid) && tid.Client?
    requires BeforeFlag(CallOf(a, tid)) && CallOf(Exec(a, steps), tid) == DestroyReturned(0)
    ensures steps == before + [CallStep(tid, DestroyRun)] + rest && SetsFlagAfter(a, tid, before, rest)
    ensures Exec(DoCall(Exec(a, before), tid, DestroyRun), rest) == Exec(a, steps)
    decreases |steps|
  {
    var step, later := steps[0], steps[1..];
    assert StartsNothing([step], tid) && StartsNothing(later, tid);
    OneStep(a, step, tid);
    if BeforeFlag(CallOf(Do(a, step), tid)) {
      before, rest := FlagSplit(Do(a, step), tid, later);
      RunStep(a, step, before);
      before := [step] + before;
    } else {
      if Ended(CallOf(Do(a, step), tid)) { EndedStays(Do(a, step), later, tid); }
      before, rest := [], later;
    }
  }

  lemma FlagFrom(s: State, tid: Tid, flags: int, steps: seq<Step>) returns (before: seq<Step>, rest: seq<Step>)
    requires Reachable(s) && CallEnabled(s, tid, StartDestroy(flags))
    requires IsRun(DoCall(s, tid, StartDestroy(flags)), steps) && StartsNothing(steps, tid)
    requires CallOf(Exec(DoCall(s, tid, StartDestroy(flags)), steps), tid) == DestroyReturned(0)
    ensures var a := DoCall(s, tid, StartDestroy(flags));
            && steps == before + [CallStep(tid, DestroyRun)] + rest && SetsFlagAfter(a, tid, before, rest)
            && Exec(DoCall(Exec(a, before), tid, DestroyRun), rest) == Exec(a, steps)
            && Reachable(Exec(a, before)) && Reachable(DoCall(Exec(a, before), tid, DestroyRun))
  {
    var a := DoCall(s, tid, StartDestroy(flags));
    CallMoved(s, tid, StartDestroy(flags));
    ReachableStep(s, CallStep(tid, StartDestroy(flags)));
    before, rest := FlagSplit(a, tid, steps);
    ReachableRun(a, before);
    ReachableStep(Exec(a, before), CallStep(tid, DestroyRun));
  }

  /** A destroy that returns 0 did what its flags ask for, seen from the state f in which it set the flag: with the
      lowest bit set, every task accepted until then was run, once; without it, only those already grabbed were, and
      the others are still in the ring, in their order. */
  lemma DestroyKeepsItsWord(s: State, tid: Tid, flags: int, steps: seq<Step>)
    returns (before: seq<Step>, rest: seq<Step>)
    requires Reachable(s) && CallEnabled(s, tid, StartDestroy(flags))
    requires IsRun(DoCall(s, tid, StartDestroy(flags)), steps) && StartsNothing(steps, tid)
    requires CallOf(Exec(DoCall(s, tid, StartDestroy(flags)), steps), tid) == DestroyReturned(0)
    ensures steps == before + [CallStep(tid, DestroyRun)] + rest
    ensures SetsFlagAfter(DoCall(s, tid, StartDestroy(flags)), tid, before, rest)
    ensures var f := Exec(DoCall(s, tid, StartDestroy(flags)), before);
            var t := Exec(DoCall(s, tid, StartDestroy(flags)), steps);
            && t.accepted == f.accepted
            && t.grabbed == (if flags % 2 == 1 then f.accepted else f.grabbed)
            && EachOnce(t.completed, |t.grabbed|)
            && 0 < |f.mem.queue| == |t.mem.queue|
            && Pending(t.mem) == (if flags % 2 == 1 then [] else Pending(f.mem))
  {
    before, rest := FlagFrom(s, tid, flags, steps);
    var f := Exec(DoCall(s, tid, StartDestroy(flags)), before);
    var t := Exec(DoCall(s, tid, StartDestroy(flags)), steps);
    DestroyCodes(s, tid, flags, steps);
    SinceFlag(f, tid, rest, t);
    ReachableRun(DoCall(f, tid, DestroyRun), rest);
    EndOf(f, tid, t);
  }

  lemma EndOf(f: State, tid: Tid, t: State)
    requires Reachable(t) && CallOf(t, tid) == DestroyReturned(0)
    requires t.closing.Some? && t.closing.value.accepted == f.accepted && t.closing.value.grabbed == f.grabbed
    requires 0 < |f.mem.queue| && 0 < |t.mem.queue| && t.mem.shutdown != Open
    requires t.mem.shutdown == Immediate ==> Pending(t.mem) == Pending(f.mem)
    ensures t.accepted == f.accepted && EachOnce(t.completed, |t.grabbed|)
    ensures t.grabbed == if t.mem.shutdown == Graceful then f.accepted else f.grabbed
    ensures Pending(t.mem) == if t.mem.shutdown == Graceful then [] else Pending(f.mem)
  {
    if t.mem.shutdown == Graceful { GracefulDrain(t, tid); } else { ImmediateDrop(t, tid); }
  }

  /** What the state in which the flag was set has to do with the end of the run. */
  lemma SinceFlag(f: State, tid: Tid, rest: seq<Step>, t: State)
    requires Reachable(f) && CallEnabled(f, tid, DestroyRun) && f.mem.shutdown == Open
    requires IsRun(DoCall(f, tid, DestroyRun), rest) && Exec(DoCall(f, tid, DestroyRun), rest) == t
    ensures var g := DoCall(f, tid, DestroyRun);
            && Reachable(g) && CallOf(g, tid) == DestroyBroadcast
            && g.mem.count == f.mem.count && g.mem.threadCount == f.mem.threadCount
            && g.mem.shutdown == t.mem.shutdown != Open
    ensures t.closing.Some? && t.closing.value.accepted == f.accepted && t.closing.value.grabbed == f.grabbed
    ensures 0 < |f.mem.queue| == |t.mem.queue|
    ensures t.mem.shutdown == Immediate ==> Pending(t.mem) == Pending(f.mem)
  {
    var g := DoCall(f, tid, DestroyRun);
    ReachableInv(f);
    ReachableStep(f, CallStep(tid, DestroyRun));
    CallMoved(f, tid, DestroyRun);
    ClosedForGood(g, rest);
    RunFacts(g, rest);
    if g.mem.shutdown == Immediate { ImmediateFreeze(g, rest); }
  }

  /** The cost of a destroy that returns 0, in every schedule: after it sets the flag there are as many grabs as
      tasks were pending then if the lowest bit of its flags is set, and none if not; and one exit per thread. */
  lemma DestroyCost(s: State, tid: Tid, flags: int, steps: seq<Step>)
    returns (before: seq<Step>, rest: seq<Step>)
    requires Reachable(s) && CallEnabled(s, tid, StartDestroy(flags))
    requires IsRun(DoCall(s, tid, StartDestroy(flags)), steps) && StartsNothing(steps, tid)
    requires CallOf(Exec(DoCall(s, tid, StartDestroy(flags)), steps), tid) == DestroyReturned(0)
    ensures steps == before + [CallStep(tid, DestroyRun)] + rest
    ensures SetsFlagAfter(DoCall(s, tid, StartDestroy(flags)), tid, before, rest)
    ensures var f := Exec(DoCall(s, tid, StartDestroy(flags)), before);
            && Grabs(DoCall(f, tid, DestroyRun), rest) == (if flags % 2 == 1 then f.mem.count else 0)
            && Exits(rest) == f.mem.threadCount
  {
    before, rest := FlagFrom(s, tid, flags, steps);
    var f := Exec(DoCall(s, tid, StartDestroy(flags)), before);
    DestroyCodes(s, tid, flags, steps);
    SinceFlag(f, tid, rest, Exec(DoCall(s, tid, StartDestroy(flags)), steps));
    ShutdownCost(DoCall(f, tid, DestroyRun), rest, tid);
  }
}
