/**
 The bounded FIFO that the pool implements, and the proof that each run of the pool is a run of it.
 Events are read off the program counter a thread moves to, never off the shared fields.
 */
module Refinement {
  import opened PoolTypes
  import opened PoolMachine
  import opened PoolInvariant
  import opened PoolInvariantProof
  import opened PoolRuns
  import opened LifecycleTheorems

  datatype Fifo = Fifo(capacity: nat, mode: Shutdown, pending: seq<Task>)

  datatype Event =
    | Silent
    | Accept(task: Task)
    | RefuseFull
    | RefuseClosed
    | Taken(task: Task)
    | NothingToDo
    | Quit
    | Close(mode: Shutdown)
    | CloseAgain

  /** When the FIFO lets an event happen. */
  predicate Allowed(f: Fifo, e: Event) {
    match e
    case Silent => true
    case Accept(_) => f.mode == Open && |f.pending| < f.capacity
    case RefuseFull => |f.pending| == f.capacity
    case RefuseClosed => f.mode != Open && |f.pending| < f.capacity
    case Taken(t) => f.mode != Immediate && f.pending != [] && t == f.pending[0]
    case NothingToDo => f.mode == Open && f.pending == []
    case Quit => f.mode == Immediate || (f.mode == Graceful && f.pending == [])
    case Close(m) => f.mode == Open && m != Open
    case CloseAgain => f.mode != Open
  }

  function After(f: Fifo, e: Event): Fifo
    requires Allowed(f, e)
  {
    match e
    case Accept(t) => f.(pending := f.pending + [t])
    case Taken(_) => f.(pending := f.pending[1..])
    case Close(m) => f.(mode := m)
    case _ => f
  }

  ghost function Alpha(s: State): Fifo
    requires 0 < |s.mem.queue|
  {
    Fifo(|s.mem.queue|, s.mem.shutdown, Pending(s.mem))
  }

  function EventOf(s: State, step: Step): Event
    requires Enabled(s, step)
  {
    match step
    case CreatorStep(_) => Silent
    case WorkerStep(i, act) =>
      if !act.Test? then Silent else
      (match DoWorker(s, i, act).workers[i]
       case Grabbed(_, t) => Taken(t)
       case Exiting => Quit
       case _ => NothingToDo)
    case CallStep(tid, act) =>
      if act.AddRun? then
        (match NextCall(s, tid, act)
         case AddSignal(t, _) => Accept(t)
         case AddUnlock(_, err, _) => if err == QUEUE_FULL then RefuseFull else RefuseClosed
         case _ => Silent)
      else if act.DestroyRun? then
        (match NextCall(s, tid, act)
         case DestroyBroadcast => Close(ModeOf(CallOf(s, tid).flags))
         case _ => CloseAgain)
      else Silent
  }

  /** Each step of the pool does to the FIFO what its event says, and a step with an event is taken by
      the owner of the lock: operations take effect inside their critical sections. */
  lemma StepRefines(s: State, step: Step)
    requires Inv(s) && Enabled(s, step)
    ensures Inv(Do(s, step))
    ensures Allowed(Alpha(s), EventOf(s, step))
    ensures Alpha(Do(s, step)) == After(Alpha(s), EventOf(s, step))
    ensures EventOf(s, step) != Silent ==> s.lock == Some(Actor(step))
  {
    InvStep(s, step);
    assert Holds(s, Actor(step)) <==> s.lock == Some(Actor(step));
    match step {
      case CreatorStep(act) =>
        SamePending(s.mem, Do(s, step).mem);
      case WorkerStep(i, act) => WorkerRefines(s, i, act);
      case CallStep(c, act) =>
        CallMoved(s, c, act);
        CallRefines(s, c, act, DoCall(s, c, act));
    }
  }

  lemma WorkerRefines(s: State, i: nat, act: WorkerAct)
    requires ShapeOk(s) && WorkerEnabled(s, i, act)
    ensures Allowed(Alpha(s), EventOf(s, WorkerStep(i, act)))
    ensures |DoWorker(s, i, act).mem.queue| == |s.mem.queue|
    ensures Alpha(DoWorker(s, i, act)) == After(Alpha(s), EventOf(s, WorkerStep(i, act)))
  {
    if act.Test? && TurnOf(s.mem) == Take {
      GrabKeepsRing(s.mem, s.accepted, s.grabbed);
    } else {
      SamePending(s.mem, DoWorker(s, i, act).mem);
    }
  }

  lemma CallRefines(s: State, c: Tid, act: CallAct, t: State)
    requires ShapeOk(s) && CallEnabled(s, c, act) && Moved(s, c, act, t)
    ensures Allowed(Alpha(s), EventOf(s, CallStep(c, act)))
    ensures |t.mem.queue| == |s.mem.queue|
    ensures Alpha(t) == After(Alpha(s), EventOf(s, CallStep(c, act)))
  {
    if act.AddRun? && AddVerdict(s.mem) == 0 {
      EnqueueKeepsRing(s.mem, s.accepted, s.grabbed, CallOf(s, c).task);
    } else {
      SamePending(s.mem, t.mem);
    }
  }

  lemma SamePending(f: Fields, g: Fields)
    requires 0 < |f.queue| && f.queue == g.queue && f.head == g.head && f.count == g.count
    ensures Pending(f) == Pending(g)
  {
  }

  // ---------- Runs ----------

  function Trace(s: State, steps: seq<Step>): seq<Event>
    requires IsRun(s, steps)
    decreases |steps|
  {
    if steps == [] then [] else [EventOf(s, steps[0])] + Trace(Do(s, steps[0]), steps[1..])
  }

  predicate FifoRun(f: Fifo, events: seq<Event>)
    decreases |events|
  {
    events == [] || (Allowed(f, events[0]) && FifoRun(After(f, events[0]), events[1..]))
  }

  function FifoEnd(f: Fifo, events: seq<Event>): Fifo
    requires FifoRun(f, events)
    decreases |events|
  {
    if events == [] then f else FifoEnd(After(f, events[0]), events[1..])
  }

  lemma {:induction false} TraceRefines(s: State, steps: seq<Step>)
    requires Inv(s) && IsRun(s, steps)
    ensures Inv(Exec(s, steps))
    ensures FifoRun(Alpha(s), Trace(s, steps))
    ensures FifoEnd(Alpha(s), Trace(s, steps)) == Alpha(Exec(s, steps))
    decreases |steps|
  {
    if steps != [] {
      var t := Do(s, steps[0]);
      StepRefines(s, steps[0]);
      TraceRefines(t, steps[1..]);
      assert Trace(s, steps)[1..] == Trace(t, steps[1..]);
    }
  }

  /** Every run of creator, workers and clients is a run of the bounded FIFO, from the empty open one. */
  lemma PoolRefinesFifo(p: Params, steps: seq<Step>)
    requires GoodParams(p) && IsRun(Init(p), steps)
    ensures 0 < |Exec(Init(p), steps).mem.queue|
    ensures FifoRun(Fifo(|p.queue|, Open, []), Trace(Init(p), steps))
    ensures FifoEnd(Fifo(|p.queue|, Open, []), Trace(Init(p), steps)) == Alpha(Exec(Init(p), steps))
  {
    InitOk(p);
    TraceRefines(Init(p), steps);
  }

  // ---------- What the FIFO itself promises ----------

  function Accepts(events: seq<Event>): seq<Task> {
    if events == [] then [] else (if events[0].Accept? then [events[0].task] else []) + Accepts(events[1..])
  }

  function Takes(events: seq<Event>): seq<Task> {
    if events == [] then [] else (if events[0].Taken? then [events[0].task] else []) + Takes(events[1..])
  }

  /** One event moves a task from the accepted to the pending ones, or from those to the taken ones. */
  lemma EventConserves(f: Fifo, e: Event)
    requires Allowed(f, e)
    ensures f.pending + Accepts([e]) == Takes([e]) + After(f, e).pending
  {
  }

  lemma Regroup(p: seq<Task>, q: seq<Task>, r: seq<Task>, a: seq<Task>, b: seq<Task>, x: seq<Task>, y: seq<Task>)
    requires p + a == x + q && q + b == y + r
    ensures p + (a + b) == (x + y) + r
  {
    calc {
      p + (a + b);
      (p + a) + b;
      x + (q + b);
      (x + y) + r;
    }
  }

  /** First in, first out, nothing lost and nothing made up. */
  lemma {:induction false} FifoConserves(f: Fifo, events: seq<Event>)
    requires FifoRun(f, events)
    ensures f.pending + Accepts(events) == Takes(events) + FifoEnd(f, events).pending
    decreases |events|
  {
    if events != [] {
      var e, rest := events[0], events[1..];
      var g := After(f, e);
      FifoConserves(g, rest);
      EventConserves(f, e);
      assert Accepts(events) == Accepts([e]) + Accepts(rest);
      assert Takes(events) == Takes([e]) + Takes(rest);
      Regroup(f.pending, g.pending, FifoEnd(g, rest).pending, Accepts([e]), Accepts(rest), Takes([e]), Takes(rest));
    }
  }

  /** A closed FIFO accepts nothing more, an immediately closed one gives nothing more, and the mode of the
      first close is final. */
  lemma {:induction false} FifoStaysClosed(f: Fifo, events: seq<Event>)
    requires FifoRun(f, events) && f.mode != Open
    ensures Accepts(events) == [] && FifoEnd(f, events).mode == f.mode
    ensures f.mode == Immediate ==> Takes(events) == [] && FifoEnd(f, events) == f
    decreases |events|
  {
    if events != [] { FifoStaysClosed(After(f, events[0]), events[1..]); }
  }

  /** Over a whole run of the pool: the tasks workers took, in the order they took them, are a prefix of
      the tasks clients had accepted, in that order, and the rest is in the ring. */
  lemma RunIsFifo(p: Params, steps: seq<Step>)
    requires GoodParams(p) && IsRun(Init(p), steps)
    ensures 0 < |Exec(Init(p), steps).mem.queue|
    ensures Accepts(Trace(Init(p), steps)) == Takes(Trace(Init(p), steps)) + Pending(Exec(Init(p), steps).mem)
  {
    PoolRefinesFifo(p, steps);
    var f := Fifo(|p.queue|, Open, []);
    FifoConserves(f, Trace(Init(p), steps));
    assert f.pending + Accepts(Trace(Init(p), steps)) == Accepts(Trace(Init(p), steps));
  }

  // ---------- The code of an add and its event ----------

  /** What a step of the thread's own call does to the FIFO, if anything. */
  function OwnEvent(s: State, step: Step, tid: Tid): seq<Event>
    requires Enabled(s, step)
  {
    if OwnStep(step, tid) && EventOf(s, step) != Silent then [EventOf(s, step)] else []
  }

  function OwnEvents(s: State, steps: seq<Step>, tid: Tid): seq<Event>
    requires IsRun(s, steps)
    decreases |steps|
  {
    if steps == [] then [] else OwnEvent(s, steps[0], tid) + OwnEvents(Do(s, steps[0]), steps[1..], tid)
  }

  /** How many of the thread's own signals fail. */
  function OwnFailure(step: Step, tid: Tid): nat {
    if OwnStep(step, tid) && step.act.SignalFails? then 1 else 0
  }

  function OwnFailures(steps: seq<Step>, tid: Tid): nat {
    if steps == [] then 0 else OwnFailure(steps[0], tid) + OwnFailures(steps[1..], tid)
  }

  /** The events that a return code stands for, the codes as threadpool.h numbers them. */
  predicate CodeFits(task: Task, err: int, slot: Option<nat>, events: seq<Event>, failures: nat) {
    if task.routine == 0 then err == -1 && slot == None && events == [] && failures == 0
    else if slot.Some? then events == [Accept(task)] && ((err == 0 && failures == 0) || (err == -2 && failures == 1))
    else failures == 0 && ((err == -2 && events == []) || (err == -3 && events == [RefuseFull])
                           || (err == -4 && events == [RefuseClosed]))
  }

  /** The events that an add has had when it stands there. */
  predicate Fits(task: Task, call: Call, events: seq<Event>, failures: nat) {
    match call
    case AddLock(t) => t == task && t.routine != 0 && events == [] && failures == 0
    case AddBody(t) => t == task && t.routine != 0 && events == [] && failures == 0
    case AddSignal(t, _) => t == task && t.routine != 0 && events == [Accept(task)] && failures == 0
    case AddUnlock(t, err, slot) => t == task && CodeFits(task, err, slot, events, failures)
    case AddReturned(t, err, slot) => t == task && CodeFits(task, err, slot, events, failures)
    case Idle => true
    case _ => false
  }

  lemma FitsOwn(s: State, c: Tid, act: CallAct, task: Task, events: seq<Event>, failures: nat)
    requires CallEnabled(s, c, act) && !act.StartAdd? && !act.StartDestroy?
    requires Fits(task, CallOf(s, c), events, failures)
    ensures var step := CallStep(c, act);
            Fits(task, NextCall(s, c, act), events + OwnEvent(s, step, c), failures + OwnFailure(step, c))
  {
  }

  lemma FitsStep(s: State, step: Step, tid: Tid, task: Task, events: seq<Event>, failures: nat)
    requires Enabled(s, step) && StartsNothing([step], tid) && !tid.Creator?
    requires Fits(task, CallOf(s, tid), events, failures)
    ensures Fits(task, CallOf(Do(s, step), tid), events + OwnEvent(s, step, tid), failures + OwnFailure(step, tid))
  {
    assert !OwnStep([step][0], tid) || (!step.act.StartAdd? && !step.act.StartDestroy?);
    assert events + [] == events;
    match step {
      case CreatorStep(act) =>
      case WorkerStep(i, act) => WorkerCalls(s, i, act);
      case CallStep(c, act) =>
        CallMoved(s, c, act);
        if c == tid { FitsOwn(s, c, act, task, events, failures); }
    }
  }

  lemma {:induction false} FitsRun(s: State, steps: seq<Step>, tid: Tid, task: Task, events: seq<Event>, failures: nat)
    requires IsRun(s, steps) && StartsNothing(steps, tid) && !tid.Creator?
    requires Fits(task, CallOf(s, tid), events, failures)
    ensures Fits(task, CallOf(Exec(s, steps), tid),
                 events + OwnEvents(s, steps, tid), failures + OwnFailures(steps, tid))
    decreases |steps|
  {
    if steps == [] {
      assert events + [] == events;
    } else {
      var step, rest := steps[0], steps[1..];
      var e := OwnEvent(s, step, tid);
      assert StartsNothing([step], tid) && StartsNothing(rest, tid);
      FitsStep(s, step, tid, task, events, failures);
      FitsRun(Do(s, step), rest, tid, task, events + e, failures + OwnFailure(step, tid));
      assert (events + e) + OwnEvents(Do(s, step), rest, tid) == events + OwnEvents(s, steps, tid);
    }
  }

  /** Each return code of add stands for what this very call, of this very task, did to the FIFO between its start
      and its return, whatever the other threads did meanwhile. */
  lemma AddCodeIsItsEvent(s: State, tid: Tid, task: Task, steps: seq<Step>)
    requires CallEnabled(s, tid, StartAdd(task)) && IsRun(DoCall(s, tid, StartAdd(task)), steps)
    requires StartsNothing(steps, tid) && CallOf(Exec(DoCall(s, tid, StartAdd(task)), steps), tid).AddReturned?
    ensures var after := DoCall(s, tid, StartAdd(task));
            var call := CallOf(Exec(after, steps), tid);
            var events, failures := OwnEvents(after, steps, tid), OwnFailures(steps, tid);
            && call.task == task
            && call.err in {0, -1, -2, -3, -4}
            && (call.err == 0 <==> events == [Accept(task)] && failures == 0)
            && (call.err == -1 <==> task.routine == 0)
            && (call.err == -2 <==> task.routine != 0 && (events == [] || (events == [Accept(task)] && failures == 1)))
            && (call.err == -3 <==> events == [RefuseFull])
            && (call.err == -4 <==> events == [RefuseClosed])
            && (call.slot.Some? <==> events == [Accept(task)])
  {
    var after := DoCall(s, tid, StartAdd(task));
    CallMoved(s, tid, StartAdd(task));
    FitsRun(after, steps, tid, task, [], 0);
    assert [] + OwnEvents(after, steps, tid) == OwnEvents(after, steps, tid);
  }
}
