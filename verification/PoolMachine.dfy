/**
 The pool as a transition system: one creator, its workers, and any number of client threads.
 A step is one action of one thread, so every interleaving is a sequence of steps.
 What a step may do is decided by the program counter of its thread; only the places that
 acquire the mutex look at its owner: a worker's Acquire, a caller's TakeLock, and FreePool.
 */
module PoolMachine {
  import opened PoolTypes

  datatype Tid = Creator | Worker(i: nat) | Client(c: nat)

  /** Where a thread stands in a call to add or destroy. Comments give lines of threadpool.c. */
  datatype Call =
    | Idle
    | AddLock(task: Task)                                        // 161
    | AddBody(task: Task)                                        // 165, owns the lock
    | AddSignal(task: Task, entry: nat)                          // 187, owns the lock
    | AddUnlock(task: Task, err: int, slot: Option<nat>)         // 193, owns the lock
    | AddReturned(task: Task, err: int, slot: Option<nat>)       // 197
    | DestroyLock(flags: int)                                    // 208
    | DestroyBody(flags: int)                                    // 214, owns the lock
    | DestroyBroadcast                                           // 223, owns the lock
    | DestroyUnlock                                              // 224, owns the lock
    | DestroyJoin(next: nat, err: int)                           // 230
    | DestroyFree                                                // 239
    | DestroyReturned(err: int)                                  // 241, the lock was released
    | ReturnedHolding(err: int)                                  // 241, the lock was not released

  /** Where a worker stands in its loop. A ticket counts the tasks grabbed before this one. */
  datatype Pc =
    | NotCreated
    | AtLock                                                     // 274
    | Testing                                                    // 278, owns the lock
    | Asleep                                                     // 279, not yet woken
    | Woken                                                      // 279, to take the lock again
    | Grabbed(ticket: nat, task: Task)                           // 295, owns the lock
    | Busy(ticket: nat, task: Task, call: Call)                  // 298, the task may call add
    | Exiting                                                    // 301, owns the lock
    | ExitUnlock                                                 // 303, owns the lock
    | Exited                                                     // 304

  /** Where the creator stands in its start loop. */
  datatype CreatorPc =
    | Spawning(next: nat)                                        // 131
    | BumpCount(next: nat)                                       // 137
    | ReadStarted(next: nat)                                     // 138, before the read
    | WriteStarted(next: nat, value: int)                        // 138, between read and write
    | RollingBack(next: nat, call: Call)                         // 134, returns NULL after the call
    | Created                                                    // 141

  /** What the pool was like when the shutdown flag was set, and which thread set it. */
  datatype Closing = Closing(closer: Tid, mem: Fields, accepted: seq<Task>, grabbed: seq<Task>)

  datatype State = State(
    mem: Fields,
    lock: Option<Tid>,
    workers: seq<Pc>,
    clients: seq<Call>,
    creator: CreatorPc,
    freed: bool,
    // Histories: they record what happened and decide no step.
    accepted: seq<Task>,
    grabbed: seq<Task>,
    completed: seq<nat>,
    failedSignals: nat,
    broadcast: bool,
    closing: Option<Closing>
  )

  /** Arguments of create, the number of client threads, and what malloc left in the queue. */
  datatype Params = Params(threadCount: nat, queue: seq<Task>, clients: nat)

  /** create refuses every other argument before it allocates anything. */
  ghost predicate GoodParams(p: Params) {
    0 < p.threadCount <= MAX_THREADS && 0 < |p.queue| <= MAX_QUEUE
  }

  function Init(p: Params): State {
    State(InitFields(p.queue), None, seq(p.threadCount, i => NotCreated), seq(p.clients, i => Idle),
          Spawning(0), false, [], [], [], 0, false, None)
  }

  // ---------- Calls ----------

  /** Threads that may be inside a call: rolling-back creator, busy workers, clients. */
  predicate Caller(s: State, tid: Tid) {
    match tid
    case Creator => s.creator.RollingBack?
    case Worker(i) => i < |s.workers| && s.workers[i].Busy?
    case Client(c) => c < |s.clients|
  }

  function CallOf(s: State, tid: Tid): Call {
    if !Caller(s, tid) then Idle else
    match tid
    case Creator => s.creator.call
    case Worker(i) => s.workers[i].call
    case Client(c) => s.clients[c]
  }

  function SetCall(s: State, tid: Tid, call: Call): State
    requires Caller(s, tid)
  {
    match tid
    case Creator => s.(creator := s.creator.(call := call))
    case Worker(i) => s.(workers := s.workers[i := s.workers[i].(call := call)])
    case Client(c) => s.(clients := s.clients[c := call])
  }

  /** No call in progress, and none that went away with the lock. */
  predicate Resting(call: Call) {
    call.Idle? || call.AddReturned? || call.DestroyReturned?
  }

  function WakeAll(ws: seq<Pc>): (r: seq<Pc>)
    ensures |r| == |ws|
  {
    seq(|ws|, i requires 0 <= i < |ws| => if ws[i].Asleep? then Woken else ws[i])
  }

  datatype CallAct =
    | StartAdd(task: Task)
    | StartDestroy(flags: int)
    | TakeLock
    | LockFails
    | AddRun
    | SignalWakes(i: nat)
    | SignalNobody
    | SignalFails
    | AddRelease
    | DestroyRun
    | BroadcastAll
    | BroadcastFails
    | DestroyRelease
    | JoinNext
    | JoinFails
    | JoinDone
    | FreePool

  /** What the code lets a caller do next. A client can start a call only once create returned the pool;
      a task only adds. */
  predicate CallReady(s: State, tid: Tid, act: CallAct) {
    && Caller(s, tid)
    && var call := CallOf(s, tid);
       match act
       case StartAdd(_) => Resting(call) && (tid.Worker? || (tid.Client? && s.creator.Created?))
       case StartDestroy(_) => Resting(call) && tid.Client? && s.creator.Created?
       case TakeLock => (call.AddLock? || call.DestroyLock?) && s.lock == None
       case LockFails => call.AddLock? || call.DestroyLock?
       case AddRun => call.AddBody? && s.mem.tail < |s.mem.queue|
       case SignalWakes(i) => call.AddSignal? && i < |s.workers| && s.workers[i].Asleep?
       case SignalNobody => call.AddSignal? && forall i | 0 <= i < |s.workers| :: !s.workers[i].Asleep?
       case SignalFails => call.AddSignal?
       case AddRelease => call.AddUnlock?
       case DestroyRun => call.DestroyBody?
       case BroadcastAll => call.DestroyBroadcast?
       case BroadcastFails => call.DestroyBroadcast?
       case DestroyRelease => call.DestroyUnlock?
       case JoinNext =>
         call.DestroyJoin? && call.next < s.mem.threadCount
         && call.next < |s.workers| && s.workers[call.next].Exited?
       case JoinFails => call.DestroyJoin? && call.next < s.mem.threadCount
       case JoinDone => call.DestroyJoin? && call.next >= s.mem.threadCount
       case FreePool => call.DestroyFree? && (s.mem.started > 0 || s.lock == None)
  }

  /** Once the pool is freed what a client's action would do is undefined, so its steps end there;
      LifecycleTheorems says when one is left. */
  predicate CallEnabled(s: State, tid: Tid, act: CallAct) {
    CallReady(s, tid, act) && (tid.Client? ==> !s.freed)
  }

  /** Where the caller stands after the action. */
  function NextCall(s: State, tid: Tid, act: CallAct): Call
    requires CallEnabled(s, tid, act)
  {
    var call := CallOf(s, tid);
    match act
    case StartAdd(t) => if t.routine == 0 then AddReturned(t, INVALID, None) else AddLock(t)
    case StartDestroy(flags) => DestroyLock(flags)
    case TakeLock => if call.AddLock? then AddBody(call.task) else DestroyBody(call.flags)
    case LockFails =>
      if call.AddLock? then AddReturned(call.task, LOCK_FAILURE, None) else DestroyReturned(LOCK_FAILURE)
    case AddRun =>
      if AddVerdict(s.mem) != 0 then AddUnlock(call.task, AddVerdict(s.mem), None)
      else AddSignal(call.task, |s.accepted|)
    case SignalWakes(_) => AddUnlock(call.task, 0, Some(call.entry))
    case SignalNobody => AddUnlock(call.task, 0, Some(call.entry))
    case SignalFails => AddUnlock(call.task, LOCK_FAILURE, Some(call.entry))
    case AddRelease => AddReturned(call.task, call.err, call.slot)
    case DestroyRun => if s.mem.shutdown != Open then ReturnedHolding(SHUTDOWN) else DestroyBroadcast
    case BroadcastAll => DestroyUnlock
    case BroadcastFails => ReturnedHolding(LOCK_FAILURE)
    case DestroyRelease => DestroyJoin(0, 0)
    case JoinNext => DestroyJoin(call.next + 1, call.err)
    case JoinFails => DestroyJoin(call.next + 1, THREAD_FAILURE)
    case JoinDone => if call.err == 0 then DestroyFree else DestroyReturned(call.err)
    case FreePool => DestroyReturned(0)
  }

  /** What the action does to the rest of the state. */
  function Effect(s: State, tid: Tid, act: CallAct): State
    requires CallEnabled(s, tid, act)
  {
    match act
    case TakeLock => s.(lock := Some(tid))
    case AddRun =>
      if AddVerdict(s.mem) != 0 then s
      else s.(mem := Enqueue(s.mem, CallOf(s, tid).task), accepted := s.accepted + [CallOf(s, tid).task])
    case SignalWakes(i) => s.(workers := s.workers[i := Woken])
    case SignalFails => s.(failedSignals := s.failedSignals + 1)
    case AddRelease => s.(lock := None)
    case DestroyRun =>
      if s.mem.shutdown != Open then s else
      var mem := s.mem.(shutdown := ModeOf(CallOf(s, tid).flags));
      s.(mem := mem, closing := Some(Closing(tid, mem, s.accepted, s.grabbed)))
    case BroadcastAll => s.(workers := WakeAll(s.workers), broadcast := true)
    case DestroyRelease => s.(lock := None)
    case FreePool => if s.mem.started > 0 then s else s.(freed := true)
    case _ => s
  }

  function DoCall(s: State, tid: Tid, act: CallAct): State
    requires CallEnabled(s, tid, act)
  {
    SetCall(Effect(s, tid, act), tid, NextCall(s, tid, act))
  }

  // ---------- Workers ----------

  datatype WorkerAct =
    | Acquire
    | Test
    | WakeUp          // spurious
    | GrabRelease
    | FinishTask
    | DropStarted
    | ExitRelease

  predicate WorkerEnabled(s: State, i: nat, act: WorkerAct) {
    && i < |s.workers|
    && var pc := s.workers[i];
       match act
       case Acquire => (pc.AtLock? || pc.Woken?) && s.lock == None
       case Test => pc.Testing? && (TurnOf(s.mem) == Take ==> s.mem.head < |s.mem.queue| && s.mem.count > 0)
       case WakeUp => pc.Asleep?
       case GrabRelease => pc.Grabbed?
       case FinishTask => pc.Busy? && Resting(pc.call)
       case DropStarted => pc.Exiting?
       case ExitRelease => pc.ExitUnlock?
  }

  function SetPc(s: State, i: nat, pc: Pc): State
    requires i < |s.workers|
  {
    s.(workers := s.workers[i := pc])
  }

  function DoWorker(s: State, i: nat, act: WorkerAct): State
    requires WorkerEnabled(s, i, act)
  {
    var pc := s.workers[i];
    match act
    case Acquire => SetPc(s, i, Testing).(lock := Some(Worker(i)))
    case Test =>
      (match TurnOf(s.mem)
       case Wait => SetPc(s, i, Asleep).(lock := None)
       case Leave => SetPc(s, i, Exiting)
       case Take =>
         var t := s.mem.queue[s.mem.head];
         SetPc(s, i, Grabbed(|s.grabbed|, t)).(mem := Grab(s.mem), grabbed := s.grabbed + [t]))
    case WakeUp => SetPc(s, i, Woken)
    case GrabRelease => SetPc(s, i, Busy(pc.ticket, pc.task, Idle)).(lock := None)
    case FinishTask => SetPc(s, i, AtLock).(completed := s.completed + [pc.ticket])
    case DropStarted => SetPc(s, i, ExitUnlock).(mem := s.mem.(started := s.mem.started - 1))
    case ExitRelease => SetPc(s, i, Exited).(lock := None)
  }

  // ---------- Creator ----------

  datatype CreatorAct = Spawn | SpawnFails | CountThread | LoadStarted | StoreStarted | FinishCreate

  predicate CreatorEnabled(s: State, act: CreatorAct) {
    match act
    case Spawn => s.creator.Spawning? && s.creator.next < |s.workers|
    case SpawnFails => s.creator.Spawning? && s.creator.next < |s.workers|
    case CountThread => s.creator.BumpCount?
    case LoadStarted => s.creator.ReadStarted?
    case StoreStarted => s.creator.WriteStarted?
    case FinishCreate => s.creator.Spawning? && s.creator.next >= |s.workers|
  }

  function DoCreator(s: State, act: CreatorAct): State
    requires CreatorEnabled(s, act)
  {
    match act
    case Spawn =>
      s.(workers := s.workers[s.creator.next := AtLock], creator := BumpCount(s.creator.next))
    case SpawnFails => s.(creator := RollingBack(s.creator.next, DestroyLock(0)))
    case CountThread =>
      s.(mem := s.mem.(threadCount := s.mem.threadCount + 1), creator := ReadStarted(s.creator.next))
    case LoadStarted => s.(creator := WriteStarted(s.creator.next, s.mem.started))
    case StoreStarted =>
      s.(mem := s.mem.(started := s.creator.value + 1), creator := Spawning(s.creator.next + 1))
    case FinishCreate => s.(creator := Created)
  }

  // ---------- Runs ----------

  datatype Step =
    | CreatorStep(start: CreatorAct)
    | WorkerStep(i: nat, work: WorkerAct)
    | CallStep(tid: Tid, act: CallAct)

  predicate Enabled(s: State, step: Step) {
    match step
    case CreatorStep(act) => CreatorEnabled(s, act)
    case WorkerStep(i, act) => WorkerEnabled(s, i, act)
    case CallStep(tid, act) => CallEnabled(s, tid, act)
  }

  function Do(s: State, step: Step): State
    requires Enabled(s, step)
  {
    match step
    case CreatorStep(act) => DoCreator(s, act)
    case WorkerStep(i, act) => DoWorker(s, i, act)
    case CallStep(tid, act) => DoCall(s, tid, act)
  }

  predicate IsRun(s: State, steps: seq<Step>)
    decreases |steps|
  {
    steps == [] || (Enabled(s, steps[0]) && IsRun(Do(s, steps[0]), steps[1..]))
  }

  function Exec(s: State, steps: seq<Step>): State
    requires IsRun(s, steps)
    decreases |steps|
  {
    if steps == [] then s else Exec(Do(s, steps[0]), steps[1..])
  }

  ghost predicate Reachable(s: State) {
    exists p: Params, steps: seq<Step> ::
      GoodParams(p) && IsRun(Init(p), steps) && Exec(Init(p), steps) == s
  }

  lemma {:induction false} RunConcat(s: State, first: seq<Step>, second: seq<Step>)
    requires IsRun(s, first)
    ensures IsRun(s, first + second) <==> IsRun(Exec(s, first), second)
    ensures IsRun(s, first + second) ==> Exec(s, first + second) == Exec(Exec(s, first), second)
    decreases |first|
  {
    if first == [] {
      assert first + second == second;
    } else {
      assert (first + second)[1..] == first[1..] + second;
      RunConcat(Do(s, first[0]), first[1..], second);
    }
  }
}
