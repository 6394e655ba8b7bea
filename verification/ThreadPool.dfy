/**
 The pool's code in its own form: an object whose methods update its fields and its ring in place.
 The result of each pthread call is a parameter. Every method is tied to the functions of PoolTypes, which
 are also what the critical sections of PoolMachine do.
 */
module ThreadPools {
  import opened PoolTypes

  class ThreadPool {
    var queue: array<Task>
    var threadCount: nat
    var head: nat
    var tail: nat
    var count: nat
    var shutdown: Shutdown
    var started: int

    // Histories
    ghost var accepted: seq<Task>
    ghost var grabbed: seq<Task>
    ghost var freed: bool

    ghost function View(): Fields
      reads this, queue
    {
      Fields(queue[..], head, tail, count, shutdown, threadCount, started)
    }

    ghost predicate Valid()
      reads this, queue
    {
      queue.Length <= MAX_QUEUE && RingOk(View(), accepted, grabbed)
    }

    ghost function Waiting(): seq<Task>
      requires Valid()
      reads this, queue
    {
      Pending(View())
    }

    constructor (queueSize: nat)
      requires 0 < queueSize <= MAX_QUEUE
      ensures Valid() && fresh(queue) && queue.Length == queueSize
      ensures View() == InitFields(queue[..]) && accepted == [] && grabbed == [] && !freed
    {
      queue := new Task[queueSize];
      threadCount := 0;
      head, tail, count := 0, 0, 0;
      shutdown, started := Open, 0;
      accepted, grabbed, freed := [], [], false;
      new;
      ModUnique(0, queueSize, 0, 0);
    }

    /** threadpool_add, with the return codes as threadpool.h numbers them. A code other than 0 means that the
        task did not enter the queue, except when it is the signal or the unlock that failed. */
    static method Add(pool: ThreadPool?, routine: nat, argument: int, lockOk: bool, signalOk: bool, unlockOk: bool)
      returns (err: int)
      requires pool != null ==> pool.Valid()
      modifies if pool == null then {} else {pool, pool.queue}
      ensures err == -1 <==> pool == null || routine == 0
      ensures pool != null ==>
                var entered := routine != 0 && lockOk
                               && old(pool.count) < pool.queue.Length && old(pool.shutdown) == Open;
                var task := Task(routine, argument);
                && pool.Valid() && pool.queue == old(pool.queue) && pool.freed == old(pool.freed)
                && pool.View() == (if entered then Enqueue(old(pool.View()), task) else old(pool.View()))
                && pool.accepted == old(pool.accepted) + (if entered then [task] else [])
                && pool.grabbed == old(pool.grabbed)
                && pool.Waiting() == old(pool.Waiting()) + (if entered then [task] else [])
                && (err == 0 <==> entered && signalOk && unlockOk)
                && (routine != 0 && (!lockOk || !unlockOk || (entered && !signalOk)) ==> err == -2)
                && (routine != 0 && lockOk && unlockOk && !entered ==>
                      err == if old(pool.count) == pool.queue.Length then -3 else -4)
    {
      err := 0;
      if pool == null || routine == 0 {
        return INVALID;
      }
      if !lockOk {
        return LOCK_FAILURE;
      }
      var next := (pool.tail + 1) % pool.queue.Length;
      label body: {
        if pool.count == pool.queue.Length {
          err := QUEUE_FULL;
          break body;
        }
        if pool.shutdown != Open {
          err := SHUTDOWN;
          break body;
        }
        ghost var before := pool.View();
        EnqueueKeepsRing(before, pool.accepted, pool.grabbed, Task(routine, argument));
        pool.queue[pool.tail] := Task(routine, argument);
        pool.tail := next;
        pool.count := pool.count + 1;
        pool.accepted := pool.accepted + [Task(routine, argument)];
        assert pool.View() == Enqueue(before, Task(routine, argument));
        if !signalOk {
          err := LOCK_FAILURE;
          break body;
        }
      }
      if !unlockOk {
        err := LOCK_FAILURE;
      }
    }

    /** Lines 278-292 of the worker, owning the lock: wait, leave, or grab the oldest pending task. */
    method TakeTurn() returns (turn: Turn, task: Task)
      requires Valid()
      modifies this
      ensures Valid() && queue == old(queue) && accepted == old(accepted) && freed == old(freed)
      ensures turn == Wait <==> old(count) == 0 && old(shutdown) == Open
      ensures turn == Leave <==> old(shutdown) == Immediate || (old(shutdown) == Graceful && old(count) == 0)
      ensures turn == Take ==> old(count) > 0 && View() == Grab(old(View())) && grabbed == old(grabbed) + [task]
      ensures turn == Take ==> old(Waiting()) == [task] + Waiting()
      ensures turn != Take ==> View() == old(View()) && grabbed == old(grabbed)
    {
      task := Task(0, 0);
      if count == 0 && shutdown == Open {
        return Wait, task;
      }
      if shutdown == Immediate || (shutdown == Graceful && count == 0) {
        return Leave, task;
      }
      GrabKeepsRing(View(), accepted, grabbed);
      task := queue[head];
      head := (head + 1) % queue.Length;
      count := count - 1;
      grabbed := grabbed + [task];
      turn := Take;
    }

    /** The worker's loop while the pool is shutting down and no other thread moves. */
    method RunToExit() returns (ran: seq<Task>)
      requires Valid() && shutdown != Open
      modifies this
      ensures Valid() && queue == old(queue) && queue[..] == old(queue[..])
      ensures accepted == old(accepted) && freed == old(freed)
      ensures shutdown == old(shutdown) && threadCount == old(threadCount) && started == old(started) - 1
      ensures ran == if shutdown == Graceful then old(Waiting()) else []
      ensures Waiting() == if shutdown == Graceful then [] else old(Waiting())
      ensures grabbed == old(grabbed) + ran
    {
      ran := [];
      var turn, task := TakeTurn();
      while turn == Take
        invariant Valid() && queue == old(queue) && accepted == old(accepted)
        invariant freed == old(freed) && shutdown == old(shutdown) && threadCount == old(threadCount)
        invariant started == old(started)
        invariant turn != Wait && (turn == Take ==> shutdown == Graceful)
        invariant turn == Leave ==> shutdown == Immediate || count == 0
        invariant grabbed == old(grabbed) + ran + (if turn == Take then [task] else [])
        invariant shutdown == Immediate ==> ran == []
        decreases count, turn == Take
      {
        ran := ran + [task];
        turn, task := TakeTurn();
      }
      started := started - 1;
      GrabsTakePending(old(View()), View(), accepted, old(grabbed), ran);
    }

    /** threadpool_free: refused while workers are counted as started. */
    static method Free(pool: ThreadPool?) returns (code: int)
      modifies if pool == null then {} else {pool}
      ensures code == if pool == null || pool.started > 0 then -1 else 0
      ensures pool != null ==> pool.freed == (code == 0 || old(pool.freed))
      ensures pool != null ==> unchanged(pool`queue, pool`threadCount, pool`head, pool`tail, pool`count)
      ensures pool != null ==> unchanged(pool`shutdown, pool`started, pool`accepted, pool`grabbed)
    {
      if pool == null || pool.started > 0 {
        return -1;
      }
      pool.freed := true;
      return 0;
    }

    /** threadpool_destroy, under the schedule in which each worker runs to its exit when it is joined.
        locked tells whether the call went away owning the mutex. */
    static method Destroy(pool: ThreadPool?, flags: int, lockOk: bool, broadcastOk: bool, unlockOk: bool,
                          joinOk: nat -> bool)
      returns (err: int, locked: bool, ran: seq<Task>)
      requires pool != null ==> pool.Valid() && !pool.freed
      requires pool != null && pool.shutdown == Open ==> pool.started == pool.threadCount
      modifies if pool == null then {} else {pool}
      ensures pool == null ==> err == -1
      ensures pool != null ==>
                var closes := lockOk && old(pool.shutdown) == Open;
                var joins := closes && broadcastOk && unlockOk;
                && pool.Valid() && pool.queue == old(pool.queue) && pool.accepted == old(pool.accepted)
                && pool.threadCount == old(pool.threadCount)
                && (!joins ==> pool.View() == old(pool.View()).(shutdown := pool.shutdown))
                && (!closes ==> pool.shutdown == old(pool.shutdown))
                && (closes ==> pool.shutdown == if flags % 2 == 1 then Graceful else Immediate)
                && (locked <==> lockOk && !joins)
                && (!lockOk ==> err == -2)
                && (lockOk && !closes ==> err == -4)
                && (closes && !joins ==> err == -2)
                && (joins ==> err == if forall i: nat :: i < old(pool.threadCount) ==> joinOk(i)
                                     then 0 else -5)
                && (joins ==> pool.started == 0)
                && ran == (if joins && flags % 2 == 1 && old(pool.threadCount) > 0
                           then old(pool.Waiting()) else [])
                && pool.grabbed == old(pool.grabbed) + ran
                && old(pool.Waiting()) == ran + pool.Waiting()
                && pool.freed == (err == 0)
    {
      err, locked, ran := 0, false, [];
      if pool == null {
        return INVALID, false, [];
      }
      if !lockOk {
        return LOCK_FAILURE, false, [];
      }
      locked := true;
      label body: {
        if pool.shutdown != Open {
          err := SHUTDOWN;
          break body;
        }
        pool.shutdown := ModeOf(flags);
        assert pool.Waiting() == old(pool.Waiting());
        if !broadcastOk || !unlockOk {
          err := LOCK_FAILURE;
          break body;
        }
        locked := false;
        for i := 0 to pool.threadCount
          invariant pool.Valid() && pool.queue == old(pool.queue) && pool.accepted == old(pool.accepted)
          invariant pool.shutdown == ModeOf(flags) && !pool.freed && pool.threadCount == old(pool.threadCount)
          invariant pool.started == pool.threadCount - i
          invariant err == if forall k: nat :: k < i ==> joinOk(k) then 0 else THREAD_FAILURE
          invariant pool.grabbed == old(pool.grabbed) + ran
          invariant old(pool.Waiting()) == ran + pool.Waiting()
          invariant ran == if pool.shutdown == Graceful && i > 0 then old(pool.Waiting()) else []
        {
          var more := pool.RunToExit();
          ran := ran + more;
          if !joinOk(i) {
            err := THREAD_FAILURE;
          }
        }
      }
      if err == 0 {
        var code := Free(pool);
      }
    }

    /** threadpool_create: all the threads, or none and no pool. When a thread fails to start, the destroy that
        rolls back has the results lockOk, broadcastOk, unlockOk and joinOk; create ignores its return code, so
        the pool is freed and its threads are gone only if all went well. began is the number of threads made,
        made is the pool that was built, and locked tells whether the rollback went away owning the mutex. */
    static method Create(threads: int, queueSize: int, flags: int, startOk: nat -> bool,
                         lockOk: bool, broadcastOk: bool, unlockOk: bool, joinOk: nat -> bool)
      returns (pool: ThreadPool?, began: nat, locked: bool, ghost made: ThreadPool?)
      ensures var good := 0 < threads <= 64 && 0 < queueSize <= 65536;
              var joins := lockOk && broadcastOk && unlockOk;
              && (!good ==> pool == null && began == 0 && made == null)
              && (good ==> began <= threads && (forall i :: 0 <= i < began ==> startOk(i))
                           && (began < threads ==> !startOk(began)))
              && (pool != null <==> good && began == threads)
              && (locked <==> good && pool == null && lockOk && !joins)
              && (good ==> made != null && fresh(made) && fresh(made.queue) && made.Valid()
                           && made.queue.Length == queueSize && made.threadCount == began
                           && made.accepted == [] && made.grabbed == [])
              && (pool != null ==> pool == made && pool.started == threads
                                   && pool.shutdown == Open && pool.Waiting() == [] && !pool.freed)
              && (good && pool == null ==>
                    && made.shutdown == (if lockOk then Immediate else Open)
                    && made.started == (if joins then 0 else began)
                    && (made.freed <==> joins && forall i: nat :: i < began ==> joinOk(i)))
    {
      began, locked, made := 0, false, null;
      if threads <= 0 || threads > MAX_THREADS || queueSize <= 0 || queueSize > MAX_QUEUE {
        return null, 0, false, null;
      }
      pool := new ThreadPool(queueSize);
      made := pool;
      for i := 0 to threads
        invariant began == i && pool == made && !locked
        invariant pool != null && fresh(pool) && fresh(pool.queue) && pool.Valid() && !pool.freed
        invariant pool.threadCount == pool.started == i && pool.queue.Length == queueSize
        invariant pool.shutdown == Open && pool.accepted == [] && pool.grabbed == []
        invariant forall k :: 0 <= k < i ==> startOk(k)
      {
        if !startOk(i) {
          var err, held, ran := Destroy(pool, 0, lockOk, broadcastOk, unlockOk, joinOk);
          return null, began, held, made;
        }
        began := began + 1;
        pool.threadCount := pool.threadCount + 1;
        pool.started := pool.started + 1;
      }
    }
  }
}
