/** What every reachable state of the pool satisfies. */
module PoolInvariant {
  import opened PoolTypes
  import opened PoolMachine
  import opened Weights

  // ---------- The lock ----------

  predicate CallHolds(call: Call) {
    call.AddBody? || call.AddSignal? || call.AddUnlock? || call.DestroyBody?
    || call.DestroyBroadcast? || call.DestroyUnlock? || call.ReturnedHolding?
  }

  predicate PcHolds(pc: Pc) {
    match pc
    case Testing => true
    case Grabbed(_, _) => true
    case Exiting => true
    case ExitUnlock => true
    case Busy(_, _, call) => CallHolds(call)
    case _ => false
  }

  /** The thread is between taking and releasing the lock, by its own program counter. */
  predicate Holds(s: State, tid: Tid) {
    match tid
    case Creator => s.creator.RollingBack? && CallHolds(s.creator.call)
    case Worker(i) => i < |s.workers| && PcHolds(s.workers[i])
    case Client(c) => c < |s.clients| && CallHolds(s.clients[c])
  }

  ghost predicate LockOk(s: State) {
    forall tid :: Holds(s, tid) <==> s.lock == Some(tid)
  }

  // ---------- Creation ----------

  function SpawnedBy(creator: CreatorPc, n: nat): nat {
    match creator
    case Spawning(i) => i
    case BumpCount(i) => i + 1
    case ReadStarted(i) => i + 1
    case WriteStarted(i, _) => i + 1
    case RollingBack(i, _) => i
    case Created => n
  }

  predicate Starting(s: State) {
    !s.creator.Created? && !s.creator.RollingBack?
  }

  /** The creator made a worker that it has not yet added to started. */
  predicate Lagging(s: State) {
    s.creator.BumpCount? || s.creator.ReadStarted? || s.creator.WriteStarted?
  }

  ghost predicate CreationOk(s: State) {
    var n := |s.workers|;
    var spawned := SpawnedBy(s.creator, n);
    && spawned <= n
    && (s.creator.RollingBack? ==> spawned < n && !s.creator.call.Idle?)
    && (forall j :: 0 <= j < n ==> (s.workers[j].NotCreated? <==> j >= spawned))
    && s.mem.threadCount == (if s.creator.BumpCount? then spawned - 1 else spawned)
    && s.mem.started == Sum(LiveW, s.workers) - (if Lagging(s) then 1 else 0)
    && (s.creator.WriteStarted? ==> s.creator.value == s.mem.started)
    && (Starting(s) ==> s.closing == None)
    && (!s.creator.Created? ==> s.accepted == [] && forall c :: 0 <= c < |s.clients| ==> s.clients[c].Idle?)
  }

  // ---------- Tasks and histories ----------

  ghost predicate ShapeOk(s: State) {
    && 0 < |s.workers| <= MAX_THREADS
    && |s.mem.queue| <= MAX_QUEUE
    && RingOk(s.mem, s.accepted, s.grabbed)
  }

  ghost predicate TasksOk(s: State) {
    && (forall i :: 0 <= i < |s.workers| && (s.workers[i].Grabbed? || s.workers[i].Busy?) ==>
          s.workers[i].ticket < |s.grabbed| && s.workers[i].task == s.grabbed[s.workers[i].ticket])
    && (forall p :: 0 <= p < |s.completed| ==> s.completed[p] < |s.grabbed|)
    && |s.grabbed| == |s.completed| + Sum(BusyW, s.workers)
  }

  function Min(a: nat, b: nat): nat {
    if a <= b then a else b
  }

  /** Every ticket handed out is at exactly one place: with one worker, or once in completed. */
  ghost predicate TicketOk(s: State, k: nat) {
    Below(s.completed, k) + Sum(BelowW(k), s.workers) == Min(k, |s.grabbed|)
  }

  ghost predicate TicketsOk(s: State) {
    forall k: nat :: TicketOk(s, k)
  }

  /** When ticket completed[p] finished, at most threads - 1 earlier tickets had not. */
  ghost predicate OvertakeOk(s: State) {
    forall p :: 0 <= p < |s.completed| ==>
      Below(s.completed[..p], s.completed[p]) + |s.workers| > s.completed[p]
  }

  // ---------- Calls ----------

  predicate AddCall(call: Call) {
    call.AddLock? || call.AddBody? || call.AddSignal? || call.AddUnlock? || call.AddReturned?
  }

  /** The thread that set the shutdown flag. */
  predicate Closer(s: State, tid: Tid) {
    s.closing.Some? && s.closing.value.closer == tid
  }

  predicate AllExited(s: State, n: nat) {
    n <= |s.workers| && forall j | 0 <= j < n :: s.workers[j].Exited?
  }

  /** What a return code of add says about the task having entered the queue. */
  ghost predicate SlotOk(s: State, t: Task, err: int, slot: Option<nat>) {
    && (slot.Some? ==> slot.value < |s.accepted| && s.accepted[slot.value] == t)
    && (err in {0, QUEUE_FULL, SHUTDOWN, INVALID, LOCK_FAILURE})
    && (err == INVALID <==> t.routine == 0)
    && (err == 0 ==> slot.Some?)
    && (err == SHUTDOWN ==> s.closing.Some?)
    && (slot.Some? && err != 0 ==> err == LOCK_FAILURE && s.failedSignals > 0)
  }

  ghost predicate CallOk(s: State, tid: Tid) {
    var call := CallOf(s, tid);
    && (tid.Worker? ==> call.Idle? || AddCall(call))
    && (tid.Creator? ==> !AddCall(call))
    && match call
       case AddLock(t) => t.routine != 0
       case AddBody(t) => t.routine != 0
       case AddSignal(t, entry) => t.routine != 0 && entry < |s.accepted| && s.accepted[entry] == t
       case AddUnlock(t, err, slot) => SlotOk(s, t, err, slot)
       case AddReturned(t, err, slot) => SlotOk(s, t, err, slot)
       case DestroyLock(flags) => tid.Creator? ==> s.closing == None && flags == 0
       case DestroyBody(flags) => tid.Creator? ==> s.closing == None && flags == 0
       case DestroyBroadcast => Closer(s, tid) && !s.broadcast && !s.freed
       case DestroyUnlock => Closer(s, tid) && s.broadcast && !s.freed
       case DestroyJoin(j, err) =>
         && Closer(s, tid) && s.broadcast && !s.freed && j <= s.mem.threadCount
         && err in {0, THREAD_FAILURE} && (err == 0 ==> AllExited(s, j))
       case DestroyFree => Closer(s, tid) && s.broadcast && !s.freed && AllExited(s, s.mem.threadCount)
       case DestroyReturned(err) =>
         && err in {0, LOCK_FAILURE, THREAD_FAILURE}
         && (err == 0 ==> Closer(s, tid) && s.broadcast && AllExited(s, s.mem.threadCount) && s.freed)
         && (err == THREAD_FAILURE ==> Closer(s, tid) && s.broadcast)
         && (err == LOCK_FAILURE && tid.Creator? ==> s.closing == None)
       case ReturnedHolding(err) =>
         && s.closing.Some?
         && (if err == SHUTDOWN then !tid.Creator? && (Closer(s, tid) ==> s.broadcast)
             else err == LOCK_FAILURE && Closer(s, tid) && !s.broadcast)
       case _ => true
  }

  ghost predicate CallsOk(s: State) {
    forall tid :: CallOk(s, tid)
  }

  // ---------- Shutdown ----------

  predicate Leaving(pc: Pc) {
    pc.Exiting? || pc.ExitUnlock? || pc.Exited?
  }

  predicate BeforeFlag(call: Call) {
    call.DestroyLock? || call.DestroyBody?
  }

  predicate BeforeBroadcast(call: Call) {
    call.DestroyBroadcast? || call.ReturnedHolding?
  }

  ghost predicate CloseOk(s: State) {
    && (s.closing == None <==> s.mem.shutdown == Open)
    && (s.closing.Some? ==>
          var c := s.closing.value;
          && c.mem.shutdown == s.mem.shutdown
          && s.accepted == c.accepted
          && RingOk(c.mem, c.accepted, c.grabbed)
          && c.grabbed <= s.grabbed
          && c.mem.threadCount == s.mem.threadCount
          && s.mem.queue == c.mem.queue && s.mem.tail == c.mem.tail
          && (s.mem.shutdown == Immediate ==>
                s.grabbed == c.grabbed && s.mem.head == c.mem.head && s.mem.count == c.mem.count)
          && (c.closer.Creator? <==> s.creator.RollingBack?)
          && !c.closer.Worker?
          && (c.closer.Creator? ==> s.mem.shutdown == Immediate)
          && (!s.broadcast ==> s.lock == Some(c.closer) && BeforeBroadcast(CallOf(s, c.closer))))
    && (s.broadcast ==> s.closing.Some? && forall i :: 0 <= i < |s.workers| ==> !s.workers[i].Asleep?)
    && (forall i :: 0 <= i < |s.workers| && Leaving(s.workers[i]) ==> s.broadcast && TurnOf(s.mem) == Leave)
    && (s.freed ==> s.broadcast && AllExited(s, s.mem.threadCount))
  }

  // ---------- Wake-ups ----------

  /** An add has queued its task and is about to signal. */
  predicate SignalDue(s: State) {
    s.lock.Some? && CallOf(s, s.lock.value).AddSignal?
  }

  /** No lost wake-up: each pending task has a worker that is about to look, a signal on its way,
      or a signal that failed. */
  ghost predicate WakeOk(s: State) {
    && (Sum(AsleepW, s.workers) > 0 ==>
          s.mem.count <= Sum(AlertW, s.workers) + (if SignalDue(s) then 1 else 0) + s.failedSignals)
    && (SignalDue(s) ==> s.mem.count > 0)
  }

  /** No NULL routine ever enters the queue. */
  ghost predicate RoutinesOk(s: State) {
    forall k :: 0 <= k < |s.accepted| ==> s.accepted[k].routine != 0
  }

  /** The pool is freed only by the destroy that set the flag, as it returns 0, and with the lock free. */
  ghost predicate FreedOk(s: State) {
    s.freed ==> s.lock == None && s.closing.Some? && CallOf(s, s.closing.value.closer) == DestroyReturned(0)
  }

  ghost predicate Inv(s: State) {
    && ShapeOk(s)
    && LockOk(s)
    && CreationOk(s)
    && TasksOk(s)
    && TicketsOk(s)
    && OvertakeOk(s)
    && CallsOk(s)
    && CloseOk(s)
    && WakeOk(s)
    && RoutinesOk(s)
    && FreedOk(s)
  }
}
