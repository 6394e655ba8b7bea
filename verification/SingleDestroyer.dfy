/**
 Runs with one destroy call whose broadcast succeeds: the lock is never abandoned, so that the destroy never
 deadlocks and can always return.
 */
module SingleDestroyer {
  import opened PoolTypes
  import opened PoolMachine
  import opened PoolInvariant
  import opened PoolInvariantProof
  import opened PoolRuns
  import opened Progress
  import opened OpenPool

  predicate StartsDestroy(step: Step) {
    step.CallStep? && step.act.StartDestroy?
  }

  predicate FailsBroadcast(step: Step) {
    step.CallStep? && step.act.BroadcastFails?
  }

  /** How often clients call destroy. */
  function Destroys(steps: seq<Step>): nat {
    if steps == [] then 0 else (if StartsDestroy(steps[0]) then 1 else 0) + Destroys(steps[1..])
  }

  predicate BroadcastsSucceed(steps: seq<Step>) {
    forall i | 0 <= i < |steps| :: !FailsBroadcast(steps[i])
  }

  predicate Destroying(call: Call) {
    call.DestroyLock? || call.DestroyBody? || call.DestroyBroadcast? || call.DestroyUnlock?
    || call.DestroyJoin? || call.DestroyFree?
  }

  /** After d calls of destroy by clients: at most one thread is in a destroy, none has the flag test before it
      once the flag is set, and none went away with the lock. */
  ghost predicate OneDestroy(s: State, d: nat) {
    && (forall a: Tid, b: Tid :: Destroying(CallOf(s, a)) && Destroying(CallOf(s, b)) ==> a == b)
    && (forall a: Tid :: BeforeFlag(CallOf(s, a)) ==> s.closing == None)
    && (forall a: Tid :: !CallOf(s, a).ReturnedHolding?)
    && (d == 0 ==> forall a: Tid :: Destroying(CallOf(s, a)) ==> a.Creator?)
    && (d == 0 && s.closing.Some? ==> s.closing.value.closer.Creator?)
  }

  /** How a call step moves its caller through a destroy. */
  ghost predicate DestroyMoves(s: State, c: Tid, starts: bool, t: State) {
    && (forall a: Tid :: a != c ==> CallOf(t, a) == CallOf(s, a))
    && (Destroying(CallOf(t, c)) ==> Destroying(CallOf(s, c)) || starts)
    && (BeforeFlag(CallOf(t, c)) ==> (BeforeFlag(CallOf(s, c)) || starts) && t.closing == s.closing)
    && !CallOf(t, c).ReturnedHolding?
    && (t.closing != s.closing ==> BeforeFlag(CallOf(s, c)) && t.closing.Some? && t.closing.value.closer == c)
  }

  lemma CallDestroyMoves(s: State, c: Tid, act: CallAct, t: State)
    requires CloseOk(s) && CallEnabled(s, c, act) && Moved(s, c, act, t) && !act.BroadcastFails?
    requires BeforeFlag(CallOf(s, c)) ==> s.closing == None
    requires !CallOf(s, c).ReturnedHolding?
    ensures DestroyMoves(s, c, act.StartDestroy?, t)
    ensures act.StartDestroy? ==> c.Client? && s.creator.Created?
  {
  }

  lemma OneDestroyMoves(s: State, c: Tid, starts: bool, t: State, d: nat)
    requires OneDestroy(s, d) && DestroyMoves(s, c, starts, t)
    requires starts ==> d == 0 && s.closing == None && forall a: Tid :: !Destroying(CallOf(s, a))
    ensures OneDestroy(t, if starts then d + 1 else d)
  {
    assert BeforeFlag(CallOf(s, c)) ==> Destroying(CallOf(s, c));
    assert forall a: Tid :: BeforeFlag(CallOf(s, a)) ==> Destroying(CallOf(s, a));
  }

  lemma OneDestroyCall(s: State, c: Tid, act: CallAct, t: State, d: nat)
    requires CloseOk(s) && OneDestroy(s, d)
    requires CallEnabled(s, c, act) && Moved(s, c, act, t) && !act.BroadcastFails?
    requires act.StartDestroy? ==> d == 0
    ensures OneDestroy(t, if act.StartDestroy? then d + 1 else d)
  {
    CallDestroyMoves(s, c, act, t);
    assert s.creator.Created? ==> CallOf(s, Creator) == Idle;
    OneDestroyMoves(s, c, act.StartDestroy?, t, d);
  }

  lemma OneDestroyCreator(s: State, act: CreatorAct, d: nat)
    requires Inv(s) && OneDestroy(s, d) && CreatorEnabled(s, act)
    ensures OneDestroy(DoCreator(s, act), d)
  {
    var t := DoCreator(s, act);
    forall a: Tid ensures a != Creator ==> CallOf(t, a) == CallOf(s, a) && !Destroying(CallOf(s, a)) {
      assert CallOk(s, a);
    }
  }

  lemma OneDestroyWorker(s: State, i: nat, act: WorkerAct, d: nat)
    requires OneDestroy(s, d) && WorkerEnabled(s, i, act)
    ensures OneDestroy(DoWorker(s, i, act), d)
  {
    WorkerCalls(s, i, act);
  }

  lemma OneDestroyStep(s: State, step: Step, d: nat)
    requires Inv(s) && OneDestroy(s, d) && Enabled(s, step) && !FailsBroadcast(step)
    requires StartsDestroy(step) ==> d == 0
    ensures OneDestroy(Do(s, step), if StartsDestroy(step) then d + 1 else d)
  {
    match step {
      case CreatorStep(act) => OneDestroyCreator(s, act, d);
      case WorkerStep(i, act) => OneDestroyWorker(s, i, act, d);
      case CallStep(c, act) =>
        CallMoved(s, c, act);
        OneDestroyCall(s, c, act, DoCall(s, c, act), d);
    }
  }

  lemma {:induction false} OneDestroyRun(s: State, steps: seq<Step>, d: nat)
    requires Inv(s) && OneDestroy(s, d) && IsRun(s, steps) && BroadcastsSucceed(steps) && d + Destroys(steps) <= 1
    ensures Inv(Exec(s, steps)) && OneDestroy(Exec(s, steps), d + Destroys(steps))
    decreases |steps|
  {
    if steps != [] {
      var step := steps[0];
      assert !FailsBroadcast(step);
      assert forall i :: 0 <= i < |steps[1..]| ==> steps[1..][i] == steps[i + 1];
      OneDestroyStep(s, step, d);
      InvStep(s, step);
      OneDestroyRun(Do(s, step), steps[1..], if StartsDestroy(step) then d + 1 else d);
    }
  }

  /** With one destroy call whose broadcast succeeds, no lock is ever abandoned: not by it, nor by a rollback. */
  lemma SingleDestroyNotDoomed(p: Params, steps: seq<Step>)
    requires GoodParams(p) && IsRun(Init(p), steps) && Destroys(steps) <= 1 && BroadcastsSucceed(steps)
    ensures Reachable(Exec(Init(p), steps)) && !Doomed(Exec(Init(p), steps))
  {
    InitOk(p);
    var s := Exec(Init(p), steps);
    OneDestroyRun(Init(p), steps, 0);
    if s.lock.Some? { assert !CallOf(s, s.lock.value).ReturnedHolding?; }
  }

  /** So once it has set the flag it is never deadlocked: in every state of every such run some step is enabled
      that brings its return nearer, and it can return 0 without failures, spurious wake-ups or new calls. */
  lemma SingleDestroyReturns(p: Params, steps: seq<Step>)
    requires GoodParams(p) && IsRun(Init(p), steps) && Destroys(steps) <= 1 && BroadcastsSucceed(steps)
    requires InProgress(Exec(Init(p), steps))
    ensures var s := Exec(Init(p), steps);
            && (exists step :: Enabled(s, step) && Plain(step) && Remaining(Do(s, step)) < Remaining(s))
            && (exists more :: IsRun(s, more) && PlainRun(more) && Returned(Exec(s, more)))
  {
    SingleDestroyNotDoomed(p, steps);
    var s := Exec(Init(p), steps);
    ReachableInv(s);
    var step := ProgressStep(s);
    var more := CanReturn(s);
  }

  lemma LockNotTaken(s: State, tid: Tid, d: nat)
    requires CloseOk(s) && OneDestroy(s, d) && CallOf(s, tid).DestroyLock?
    ensures s.mem.shutdown == Open && !DestroyOwns(s)
  {
    assert Destroying(CallOf(s, tid));
    if DestroyOwns(s) { assert Destroying(CallOf(s, s.lock.value)); }
  }

  /** And from the moment it is called: while it waits for the lock, it can get it and return 0. */
  lemma SingleDestroyCompletes(p: Params, steps: seq<Step>, tid: Tid)
    requires GoodParams(p) && IsRun(Init(p), steps) && Destroys(steps) <= 1 && BroadcastsSucceed(steps)
    requires CallOf(Exec(Init(p), steps), tid).DestroyLock?
    ensures var s := Exec(Init(p), steps);
            exists more :: IsRun(s, more) && PlainRun(more) && CallOf(Exec(s, more), tid) == DestroyReturned(0)
  {
    var s := Exec(Init(p), steps);
    InitOk(p);
    OneDestroyRun(Init(p), steps, 0);
    LockNotTaken(s, tid, Destroys(steps));
    SingleDestroyNotDoomed(p, steps);
    DestroyCompletesIff(s, tid);
  }
}
