/** Facts about whole runs: what only grows, what never changes again, and step counts. */
module PoolRuns {
  import opened PoolTypes
  import opened PoolMachine
  import opened Weights
  import opened PoolInvariant
  import opened PoolInvariantProof

  lemma ReachableStep(s: State, step: Step)
    requires Reachable(s) && Enabled(s, step)
    ensures Reachable(Do(s, step))
  {
    var p: Params, steps: seq<Step> :| GoodParams(p) && IsRun(Init(p), steps) && Exec(Init(p), steps) == s;
    var one := [step];
    assert one[1..] == [];
    assert IsRun(Do(s, step), []) && IsRun(s, one);
    assert Exec(s, one) == Exec(Do(s, step), []);
    RunConcat(Init(p), steps, one);
    assert GoodParams(p) && IsRun(Init(p), steps + one) && Exec(Init(p), steps + one) == Do(s, step);
  }

  lemma ReachableInit(p: Params)
    requires GoodParams(p)
    ensures Reachable(Init(p))
  {
    assert IsRun(Init(p), []) && Exec(Init(p), []) == Init(p);
  }

  /** Histories only grow, sizes stay, and what the closer recorded is never rewritten. */
  ghost predicate Extends(s: State, t: State) {
    && s.accepted <= t.accepted
    && s.grabbed <= t.grabbed
    && s.completed <= t.completed
    && |t.workers| == |s.workers|
    && |t.clients| == |s.clients|
    && |t.mem.queue| == |s.mem.queue|
    && (s.closing.Some? ==> t.closing == s.closing && t.mem.threadCount == s.mem.threadCount)
    && (s.broadcast ==> t.broadcast)
    && (s.freed ==> t.freed)
  }

  lemma CallExtends(s: State, c: Tid, act: CallAct)
    requires CallOk(s, c) && CloseOk(s) && CallEnabled(s, c, act)
    ensures Extends(s, DoCall(s, c, act))
  {
    CallMoved(s, c, act);
    CallGlobals(s, c, act, DoCall(s, c, act));
  }

  lemma WorkerExtends(s: State, i: nat, act: WorkerAct)
    requires WorkerEnabled(s, i, act)
    ensures Extends(s, DoWorker(s, i, act))
  {
  }

  lemma StepExtends(s: State, step: Step)
    requires Inv(s) && Enabled(s, step)
    ensures Extends(s, Do(s, step))
  {
    match step {
      case CreatorStep(act) =>
      case WorkerStep(i, act) => WorkerExtends(s, i, act);
      case CallStep(c, act) =>
        assert CallOk(s, c);
        CallExtends(s, c, act);
    }
  }

  lemma {:induction false} RunExtends(s: State, steps: seq<Step>)
    requires Inv(s) && IsRun(s, steps)
    ensures Extends(s, Exec(s, steps)) && Inv(Exec(s, steps))
    decreases |steps|
  {
    if steps != [] {
      InvStep(s, steps[0]);
      StepExtends(s, steps[0]);
      RunExtends(Do(s, steps[0]), steps[1..]);
    }
  }

  // ---------- Counting steps of a run ----------

  predicate IsGrab(s: State, step: Step) {
    step.WorkerStep? && step.work.Test? && TurnOf(s.mem) == Take
  }

  predicate IsExit(step: Step) {
    step.WorkerStep? && step.work.DropStarted?
  }

  function Grabs(s: State, steps: seq<Step>): nat
    requires IsRun(s, steps)
    decreases |steps|
  {
    if steps == [] then 0
    else (if IsGrab(s, steps[0]) then 1 else 0) + Grabs(Do(s, steps[0]), steps[1..])
  }

  function Exits(steps: seq<Step>): nat {
    if steps == [] then 0 else (if IsExit(steps[0]) then 1 else 0) + Exits(steps[1..])
  }

  function WorkerSteps(steps: seq<Step>): nat {
    if steps == [] then 0 else (if steps[0].WorkerStep? then 1 else 0) + WorkerSteps(steps[1..])
  }

  lemma {:induction false} GrabsCounted(s: State, steps: seq<Step>)
    requires IsRun(s, steps)
    ensures |Exec(s, steps).grabbed| == |s.grabbed| + Grabs(s, steps)
    decreases |steps|
  {
    if steps != [] {
      var t := Do(s, steps[0]);
      if steps[0].CallStep? {
        SetCallFrame(Effect(s, steps[0].tid, steps[0].act), steps[0].tid, NextCall(s, steps[0].tid, steps[0].act));
      }
      GrabsCounted(t, steps[1..]);
    }
  }

  lemma ExitStep(s: State, step: Step)
    requires CreationOk(s) && s.closing.Some? && Enabled(s, step)
    ensures Sum(LiveW, Do(s, step).workers) + (if IsExit(step) then 1 else 0) == Sum(LiveW, s.workers)
  {
    match step {
      case CreatorStep(act) =>
      case WorkerStep(i, act) => WorkerSum(s, i, act, LiveW);
      case CallStep(c, act) => CallSum(s, c, act, LiveW);
    }
  }

  /** Once the flag is set no worker is created, so the live count falls by one with each exit. */
  lemma {:induction false} ExitsCounted(s: State, steps: seq<Step>)
    requires Inv(s) && s.closing.Some? && IsRun(s, steps)
    ensures Sum(LiveW, Exec(s, steps).workers) + Exits(steps) == Sum(LiveW, s.workers)
    decreases |steps|
  {
    if steps != [] {
      var step := steps[0];
      ExitStep(s, step);
      InvStep(s, step);
      StepExtends(s, step);
      ExitsCounted(Do(s, step), steps[1..]);
    }
  }

  lemma ReachableRun(s: State, steps: seq<Step>)
    requires Reachable(s) && IsRun(s, steps)
    ensures Reachable(Exec(s, steps))
  {
    var p: Params, first: seq<Step> :| GoodParams(p) && IsRun(Init(p), first) && Exec(Init(p), first) == s;
    RunConcat(Init(p), first, steps);
    assert GoodParams(p) && IsRun(Init(p), first + steps) && Exec(Init(p), first + steps) == Exec(s, steps);
  }

  /** What a run from a reachable state ends in. */
  lemma RunFacts(s: State, steps: seq<Step>)
    requires Reachable(s) && IsRun(s, steps)
    ensures Reachable(Exec(s, steps)) && Extends(s, Exec(s, steps))
    ensures |Exec(s, steps).grabbed| == |s.grabbed| + Grabs(s, steps)
  {
    ReachableInv(s);
    RunExtends(s, steps);
    GrabsCounted(s, steps);
    ReachableRun(s, steps);
  }

  lemma RunStep(s: State, step: Step, rest: seq<Step>)
    requires Enabled(s, step) && IsRun(Do(s, step), rest)
    ensures IsRun(s, [step] + rest) && Exec(s, [step] + rest) == Exec(Do(s, step), rest)
  {
    assert ([step] + rest)[1..] == rest;
  }

  /** One call step as a run of its own. */
  lemma CallRun(s: State, tid: Tid, act: CallAct) returns (t: State)
    requires CallEnabled(s, tid, act)
    ensures t == DoCall(s, tid, act)
    ensures IsRun(s, [CallStep(tid, act)]) && Exec(s, [CallStep(tid, act)]) == t
    ensures CallOf(t, tid) == NextCall(s, tid, act) && Caller(t, tid) && t.freed == Effect(s, tid, act).freed
    ensures Holds(t, tid) == CallHolds(NextCall(s, tid, act))
  {
    t := DoCall(s, tid, act);
    RunStep(s, CallStep(tid, act), []);
    assert [CallStep(tid, act)] + [] == [CallStep(tid, act)];
    SetCallFrame(Effect(s, tid, act), tid, NextCall(s, tid, act));
    SetCallHolds(Effect(s, tid, act), tid, NextCall(s, tid, act));
  }

  // ---------- Steps of one thread's own call ----------

  predicate OwnStep(step: Step, tid: Tid) {
    step.CallStep? && step.tid == tid
  }

  /** The thread starts no call of its own in these steps. */
  predicate StartsNothing(steps: seq<Step>, tid: Tid) {
    forall i | 0 <= i < |steps| ::
      !OwnStep(steps[i], tid) || (!steps[i].act.StartAdd? && !steps[i].act.StartDestroy?)
  }

  // ---------- Runs without failures ----------

  /** The step is no failure of a pthread call, no spurious wake-up, and starts no new call. */
  predicate Plain(step: Step) {
    match step
    case CreatorStep(act) => !act.SpawnFails?
    case WorkerStep(_, act) => !act.WakeUp?
    case CallStep(_, act) =>
      !act.StartAdd? && !act.StartDestroy? && !act.LockFails? && !act.SignalFails?
      && !act.BroadcastFails? && !act.JoinFails?
  }

  predicate PlainRun(steps: seq<Step>) {
    forall i | 0 <= i < |steps| :: Plain(steps[i])
  }
}
