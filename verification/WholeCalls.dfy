/**
 Whole calls of destroy and create, in the transition system and in the class: for every outcome of the pthread
 calls, the schedule in which each worker runs to its exit when it is joined ends as the methods do.
 */
module WholeCalls {
  import opened PoolTypes
  import opened PoolMachine
  import opened PoolInvariantProof
  import opened PoolRuns
  import opened LifecycleTheorems
  import opened ThreadPools
  import opened Agreement

  lemma Then(s: State, steps: seq<Step>, t: State, step: Step) returns (more: seq<Step>, u: State)
    requires IsRun(s, steps) && Exec(s, steps) == t && Enabled(t, step)
    ensures more == steps + [step] && u == Do(t, step) && IsRun(s, more) && Exec(s, more) == u
  {
    more, u := steps + [step], Do(t, step);
    RunStep(t, step, []);
    assert [step] + [] == [step];
    RunConcat(s, steps, [step]);
  }

  lemma Chain(s: State, steps: seq<Step>, t: State, later: seq<Step>, u: State)
    requires IsRun(s, steps) && Exec(s, steps) == t && IsRun(t, later) && Exec(t, later) == u
    ensures IsRun(s, steps + later) && Exec(s, steps + later) == u
  {
    RunConcat(s, steps, later);
  }

  // ---------- A worker runs to its exit ----------

  predicate Parked(pc: Pc) {
    pc.AtLock? || pc.Woken?
  }

  /** Worker j has left, having run all that was pending if the shutdown is graceful; nothing else changed. */
  ghost predicate WentOut(s: State, j: nat, t: State) {
    && j < |s.workers|
    && t == s.(workers := s.workers[j := Exited], mem := t.mem, grabbed := t.grabbed, completed := t.completed)
    && t.mem == s.mem.(head := t.mem.head, count := t.mem.count, started := s.mem.started - 1)
    && t.grabbed == if s.mem.shutdown == Graceful then s.accepted else s.grabbed
  }

  lemma TakeOne(s: State, j: nat) returns (steps: seq<Step>, t: State)
    requires s.lock == None && j < |s.workers| && Parked(s.workers[j])
    requires TurnOf(s.mem) == Take && s.mem.head < |s.mem.queue|
    ensures IsRun(s, steps) && Exec(s, steps) == t && s.mem.count > 0
    ensures t == s.(workers := s.workers[j := AtLock], mem := Grab(s.mem), grabbed := t.grabbed,
                    completed := t.completed)
  {
    steps, t := Then(s, [], s, WorkerStep(j, Acquire));
    steps, t := Then(s, steps, t, WorkerStep(j, Test));
    steps, t := Then(s, steps, t, WorkerStep(j, GrabRelease));
    steps, t := Then(s, steps, t, WorkerStep(j, FinishTask));
  }

  lemma LeaveNow(s: State, j: nat) returns (steps: seq<Step>, t: State)
    requires s.lock == None && j < |s.workers| && Parked(s.workers[j]) && TurnOf(s.mem) == Leave
    ensures IsRun(s, steps) && Exec(s, steps) == t
    ensures t == s.(workers := s.workers[j := Exited], mem := s.mem.(started := s.mem.started - 1))
  {
    steps, t := Then(s, [], s, WorkerStep(j, Acquire));
    steps, t := Then(s, steps, t, WorkerStep(j, Test));
    steps, t := Then(s, steps, t, WorkerStep(j, DropStarted));
    steps, t := Then(s, steps, t, WorkerStep(j, ExitRelease));
  }

  lemma {:induction false} WorkerOut(s: State, j: nat) returns (steps: seq<Step>, t: State)
    requires Reachable(s) && s.lock == None && s.mem.shutdown != Open
    requires j < |s.workers| && Parked(s.workers[j])
    ensures IsRun(s, steps) && Exec(s, steps) == t && Reachable(t) && WentOut(s, j, t)
    decreases s.mem.count
  {
    ReachableInv(s);
    if TurnOf(s.mem) == Take {
      var first, mid := TakeOne(s, j);
      ReachableRun(s, first);
      var later;
      later, t := WorkerOut(mid, j);
      Chain(s, first, mid, later, t);
      steps := first + later;
    } else {
      steps, t := LeaveNow(s, j);
      ReachableRun(s, steps);
    }
  }

  // ---------- The joins and the free ----------

  ghost predicate AllJoin(joinOk: nat -> bool, first: nat, n: nat) {
    forall k: nat :: first <= k < n ==> joinOk(k)
  }

  /** The caller moves on without touching anything else. */
  lemma CallerMoves(s: State, c: Tid, act: CallAct) returns (t: State)
    requires Reachable(s) && CallEnabled(s, c, act) && !c.Worker?
    requires act.JoinNext? || act.JoinFails? || act.JoinDone?
    ensures t == DoCall(s, c, act) && Reachable(t) && IsRun(s, [CallStep(c, act)]) && Exec(s, [CallStep(c, act)]) == t
    ensures t == s.(clients := t.clients, creator := t.creator) && CallOf(t, c) == NextCall(s, c, act) && CanMove(t, c)
  {
    t := CallRun(s, c, act);
    ReachableStep(s, CallStep(c, act));
  }

  lemma WentOutKeepsCall(s: State, j: nat, t: State, c: Tid)
    requires WentOut(s, j, t) && !c.Worker? && CanMove(s, c)
    ensures CallOf(t, c) == CallOf(s, c) && CanMove(t, c)
  {
  }

  lemma JoinOne(s: State, c: Tid, ok: bool) returns (steps: seq<Step>, t: State)
    requires Reachable(s) && s.lock == None && s.mem.shutdown != Open && !c.Worker? && CanMove(s, c)
    requires CallOf(s, c).DestroyJoin? && CallOf(s, c).next < s.mem.threadCount
    requires CallOf(s, c).next < |s.workers| && Parked(s.workers[CallOf(s, c).next])
    ensures IsRun(s, steps) && Exec(s, steps) == t && Reachable(t) && CanMove(t, c)
    ensures CallOf(t, c) == DestroyJoin(CallOf(s, c).next + 1, if ok then CallOf(s, c).err else -5)
    ensures WentOut(s, CallOf(s, c).next, t.(clients := s.clients, creator := s.creator))
  {
    var j := CallOf(s, c).next;
    var first, mid := WorkerOut(s, j);
    WentOutKeepsCall(s, j, mid, c);
    var act := if ok then JoinNext else JoinFails;
    t := CallerMoves(mid, c, act);
    steps := first + [CallStep(c, act)];
    Chain(s, first, mid, [CallStep(c, act)], t);
  }

  lemma Finish(s: State, c: Tid) returns (steps: seq<Step>, t: State)
    requires Reachable(s) && s.lock == None && !s.freed && !c.Worker? && CanMove(s, c)
    requires CallOf(s, c).DestroyJoin? && CallOf(s, c).next >= s.mem.threadCount
    ensures IsRun(s, steps) && Exec(s, steps) == t && Reachable(t)
    ensures CallOf(t, c) == DestroyReturned(CallOf(s, c).err)
    ensures t == s.(clients := t.clients, creator := t.creator, freed := CallOf(s, c).err == 0)
  {
    t := CallerMoves(s, c, JoinDone);
    steps := [CallStep(c, JoinDone)];
    if CallOf(s, c).err == 0 {
      var mid := t;
      FreeNeverRefuses(mid, c);
      t := CallRun(mid, c, FreePool);
      ReachableStep(mid, CallStep(c, FreePool));
      Chain(s, steps, mid, [CallStep(c, FreePool)], t);
      steps := steps + [CallStep(c, FreePool)];
    }
  }

  /** The workers from first on are joined, one after the other. */
  ghost predicate JoinedFrom(s: State, first: nat, t: State) {
    && t.mem == s.mem.(head := t.mem.head, count := t.mem.count, started := s.mem.started - (s.mem.threadCount - first))
    && t.accepted == s.accepted && t.lock == None
    && t.grabbed == if s.mem.shutdown == Graceful && first < s.mem.threadCount then s.accepted else s.grabbed
  }

  /** The caller is about to join worker j, the earlier ones are joined and the others are waiting to run. */
  ghost predicate Joining(s: State, c: Tid, j: nat, err: int) {
    && Reachable(s) && s.lock == None && !s.freed && s.mem.shutdown != Open && !c.Worker? && CanMove(s, c)
    && CallOf(s, c) == DestroyJoin(j, err) && err in {0, -5}
    && j <= s.mem.threadCount <= |s.workers|
    && forall k :: j <= k < s.mem.threadCount ==> Parked(s.workers[k])
  }

  lemma JoinNextOne(s: State, c: Tid, j: nat, err: int, ok: bool) returns (steps: seq<Step>, t: State)
    requires Joining(s, c, j, err) && j < s.mem.threadCount
    ensures IsRun(s, steps) && Exec(s, steps) == t && Joining(t, c, j + 1, if ok then err else -5)
    ensures t.mem.threadCount == s.mem.threadCount
    ensures forall u :: JoinedFrom(t, j + 1, u) ==> JoinedFrom(s, j, u)
  {
    steps, t := JoinOne(s, c, ok);
  }

  lemma {:induction false} JoinAll(s: State, c: Tid, j: nat, err: int, joinOk: nat -> bool)
    returns (steps: seq<Step>, t: State)
    requires Joining(s, c, j, err)
    ensures IsRun(s, steps) && Exec(s, steps) == t && Reachable(t)
    ensures JoinedFrom(s, j, t)
    ensures CallOf(t, c) == DestroyReturned(if AllJoin(joinOk, j, s.mem.threadCount) then err else -5)
    ensures t.freed <==> CallOf(t, c) == DestroyReturned(0)
    decreases s.mem.threadCount - j
  {
    if j == s.mem.threadCount {
      steps, t := Finish(s, c);
    } else {
      var first, mid := JoinNextOne(s, c, j, err, joinOk(j));
      var later;
      later, t := JoinAll(mid, c, j + 1, if joinOk(j) then err else -5, joinOk);
      Chain(s, first, mid, later, t);
      steps := first + later;
      assert AllJoin(joinOk, j, s.mem.threadCount) <==> joinOk(j) && AllJoin(joinOk, j + 1, s.mem.threadCount);
    }
  }

  // ---------- A whole call of destroy ----------

  /** Every counted worker is outside its critical sections and has no task. */
  ghost predicate Quiet(s: State) {
    && s.mem.threadCount <= |s.workers|
    && forall k :: 0 <= k < s.mem.threadCount ==> Parked(s.workers[k]) || s.workers[k].Asleep?
  }

  /** What a whole destroy leaves behind. */
  ghost predicate DestroyEnds(s: State, c: Tid, flags: int, lockOk: bool, broadcastOk: bool, joinOk: nat -> bool,
                              t: State)
  {
    var closes := lockOk && s.mem.shutdown == Open;
    var joins := closes && broadcastOk;
    && CallOf(t, c) == (if !lockOk then DestroyReturned(-2) else if !closes then ReturnedHolding(-4)
                        else if !joins then ReturnedHolding(-2)
                        else DestroyReturned(if AllJoin(joinOk, 0, s.mem.threadCount) then 0 else -5))
    && t.mem == s.mem.(head := t.mem.head, count := t.mem.count, shutdown := t.mem.shutdown, started := t.mem.started)
    && t.mem.shutdown == (if !closes then s.mem.shutdown else if flags % 2 == 1 then Graceful else Immediate)
    && t.mem.started == (if joins then s.mem.started - s.mem.threadCount else s.mem.started)
    && t.accepted == s.accepted
    && t.grabbed == (if joins && flags % 2 == 1 && s.mem.threadCount > 0 then s.accepted else s.grabbed)
    && t.lock == (if lockOk && !joins then Some(c) else None)
    && (t.freed <==> CallOf(t, c) == DestroyReturned(0))
  }

  /** One step of the caller, with its thread and the run so far. */
  lemma ThenCall(s: State, steps: seq<Step>, t: State, c: Tid, act: CallAct) returns (more: seq<Step>, u: State)
    requires IsRun(s, steps) && Exec(s, steps) == t && Reachable(t) && CallEnabled(t, c, act) && !c.Worker?
    ensures IsRun(s, more) && Exec(s, more) == u == DoCall(t, c, act) && Reachable(u)
    ensures u == Effect(t, c, act).(clients := u.clients, creator := u.creator)
    ensures CallOf(u, c) == NextCall(t, c, act) && Caller(u, c)
  {
    more, u := Then(s, steps, t, CallStep(c, act));
    ReachableStep(t, CallStep(c, act));
    SetCallFrame(Effect(t, c, act), c, NextCall(t, c, act));
  }

  lemma FromFlag(s: State, c: Tid, joinOk: nat -> bool) returns (steps: seq<Step>, t: State)
    requires Reachable(s) && CallOf(s, c) == DestroyBroadcast && CanMove(s, c) && !c.Worker? && !s.freed
    requires s.mem.shutdown != Open && Quiet(s)
    ensures IsRun(s, steps) && Exec(s, steps) == t && Reachable(t)
    ensures JoinedFrom(s, 0, t)
    ensures CallOf(t, c) == DestroyReturned(if AllJoin(joinOk, 0, s.mem.threadCount) then 0 else -5)
    ensures t.freed <==> CallOf(t, c) == DestroyReturned(0)
  {
    var first, mid := ThenCall(s, [], s, c, BroadcastAll);
    first, mid := ThenCall(s, first, mid, c, DestroyRelease);
    var later;
    later, t := JoinAll(mid, c, 0, 0, joinOk);
    Chain(s, first, mid, later, t);
    steps := first + later;
  }

  lemma SoloDestroyFromLock(s: State, c: Tid, lockOk: bool, broadcastOk: bool, joinOk: nat -> bool)
    returns (steps: seq<Step>, t: State)
    requires Reachable(s) && s.lock == None && !s.freed && !c.Worker? && CanMove(s, c) && CallOf(s, c).DestroyLock?
    requires s.mem.shutdown == Open ==> Quiet(s)
    ensures IsRun(s, steps) && Exec(s, steps) == t && Reachable(t)
    ensures DestroyEnds(s, c, CallOf(s, c).flags, lockOk, broadcastOk, joinOk, t)
  {
    if !lockOk {
      steps, t := ThenCall(s, [], s, c, LockFails);
      return;
    }
    steps, t := ThenCall(s, [], s, c, TakeLock);
    steps, t := ThenCall(s, steps, t, c, DestroyRun);
    if s.mem.shutdown != Open {
      return;
    }
    if !broadcastOk {
      steps, t := ThenCall(s, steps, t, c, BroadcastFails);
    } else {
      var later, mid := [], t;
      later, t := FromFlag(mid, c, joinOk);
      Chain(s, steps, mid, later, t);
      steps := steps + later;
    }
  }

  /** A client's whole call of destroy on a quiet pool, for each outcome of lock, broadcast and joins. */
  lemma SoloDestroy(s: State, c: nat, flags: int, lockOk: bool, broadcastOk: bool, joinOk: nat -> bool)
    returns (steps: seq<Step>)
    requires Reachable(s) && MayCall(s, Client(c)) && s.lock == None
    requires s.mem.shutdown == Open ==> Quiet(s)
    ensures IsRun(s, [CallStep(Client(c), StartDestroy(flags))] + steps)
    ensures var t := Exec(s, [CallStep(Client(c), StartDestroy(flags))] + steps);
            Reachable(t) && DestroyEnds(s, Client(c), flags, lockOk, broadcastOk, joinOk, t)
  {
    var first, mid := ThenCall(s, [], s, Client(c), StartDestroy(flags));
    var t;
    steps, t := SoloDestroyFromLock(mid, Client(c), lockOk, broadcastOk, joinOk);
    RunStep(s, CallStep(Client(c), StartDestroy(flags)), steps);
  }

  /** Two rings with the same slots and histories are the same. */
  lemma SameRing(f: Fields, g: Fields, accepted: seq<Task>, grabbed: seq<Task>)
    requires RingOk(f, accepted, grabbed) && RingOk(g, accepted, grabbed) && f.queue == g.queue
    ensures f.head == g.head && f.tail == g.tail && f.count == g.count
  {
  }

  lemma ReachableRing(s: State)
    requires Reachable(s)
    ensures RingOk(s.mem, s.accepted, s.grabbed)
  {
    ReachableInv(s);
  }

  /** threadpool_destroy and a whole call in the transition system: same code, tasks run, freeing, mutex and fields. */
  method WholeDestroyAgrees(pool: ThreadPool, ghost s: State, ghost c: nat, flags: int,
                            lockOk: bool, broadcastOk: bool, joinOk: nat -> bool)
    returns (err: int, locked: bool, ran: seq<Task>, ghost steps: seq<Step>)
    requires pool.Valid() && !pool.freed && SameFields(pool, s)
    requires Reachable(s) && MayCall(s, Client(c)) && s.lock == None
    requires s.mem.shutdown == Open ==> Quiet(s)
    modifies pool
    ensures steps != [] && steps[0] == CallStep(Client(c), StartDestroy(flags)) && IsRun(s, steps)
    ensures pool.Valid() && SameFields(pool, Exec(s, steps))
    ensures CallOf(Exec(s, steps), Client(c)) == if locked then ReturnedHolding(err) else DestroyReturned(err)
    ensures Exec(s, steps).freed == pool.freed && Exec(s, steps).lock == if locked then Some(Client(c)) else None
    ensures Exec(s, steps).grabbed == s.grabbed + ran
  {
    steps := SoloDestroy(s, c, flags, lockOk, broadcastOk, joinOk);
    steps := [CallStep(Client(c), StartDestroy(flags))] + steps;
    ghost var t := Exec(s, steps);
    ReachableRing(t);
    if s.mem.shutdown == Open { QuietStarted(s); }
    Conservation(s.mem, s.accepted, s.grabbed);
    err, locked, ran := ThreadPool.Destroy(pool, flags, lockOk, broadcastOk, true, joinOk);
    SameRing(pool.View(), t.mem, t.accepted, t.grabbed);
  }

  lemma QuietStarted(s: State)
    requires Reachable(s) && (s.creator.Created? || s.creator.RollingBack?) && Quiet(s)
    ensures s.mem.started == s.mem.threadCount
  {
    ReachableInv(s);
    LivePrefix(s.workers, s.mem.threadCount);
  }

  // ---------- A whole call of create ----------

  /** The pool with i threads made, none of which has run yet. */
  function Started(p: Params, i: nat): State {
    Init(p).(mem := InitFields(p.queue).(threadCount := i, started := i), creator := Spawning(i),
             workers := seq(p.threadCount, k => if k < i then AtLock else NotCreated))
  }

  lemma StartOne(p: Params, i: nat, steps: seq<Step>) returns (more: seq<Step>)
    requires i < p.threadCount && IsRun(Init(p), steps) && Exec(Init(p), steps) == Started(p, i)
    ensures IsRun(Init(p), more) && Exec(Init(p), more) == Started(p, i + 1)
  {
    var t;
    more, t := Then(Init(p), steps, Started(p, i), CreatorStep(Spawn));
    more, t := Then(Init(p), more, t, CreatorStep(CountThread));
    more, t := Then(Init(p), more, t, CreatorStep(LoadStarted));
    more, t := Then(Init(p), more, t, CreatorStep(StoreStarted));
    assert t.workers == Started(p, i + 1).workers;
  }

  lemma {:induction false} StartSome(p: Params, i: nat) returns (steps: seq<Step>)
    requires i <= p.threadCount
    ensures IsRun(Init(p), steps) && Exec(Init(p), steps) == Started(p, i)
  {
    if i == 0 {
      steps := [];
      assert Init(p).workers == Started(p, 0).workers;
    } else {
      steps := StartSome(p, i - 1);
      steps := StartOne(p, i - 1, steps);
    }
  }

  /** A whole create in which thread number began fails to start, or none if began is the number asked for. */
  lemma SoloCreate(p: Params, began: nat, lockOk: bool, broadcastOk: bool, joinOk: nat -> bool)
    returns (steps: seq<Step>, t: State)
    requires GoodParams(p) && began <= p.threadCount
    ensures IsRun(Init(p), steps) && Exec(Init(p), steps) == t && Reachable(t)
    ensures began == p.threadCount ==> t == Started(p, began).(creator := Created)
    ensures began < p.threadCount ==>
              t.creator.RollingBack? && t.creator.next == began
              && DestroyEnds(Started(p, began), Creator, 0, lockOk, broadcastOk, joinOk, t)
  {
    steps := StartSome(p, began);
    ReachableInit(p);
    ReachableRun(Init(p), steps);
    if began == p.threadCount {
      steps, t := Then(Init(p), steps, Started(p, began), CreatorStep(FinishCreate));
    } else {
      var mid, later;
      steps, mid := Then(Init(p), steps, Started(p, began), CreatorStep(SpawnFails));
      ReachableRun(Init(p), steps);
      later, t := SoloDestroyFromLock(mid, Creator, lockOk, broadcastOk, joinOk);
      RollbackStays(mid, later);
      Chain(Init(p), steps, mid, later, t);
      steps := steps + later;
    }
    ReachableRun(Init(p), steps);
  }

  lemma {:induction false} RollbackStays(s: State, steps: seq<Step>)
    requires IsRun(s, steps) && s.creator.RollingBack?
    ensures Exec(s, steps).creator.RollingBack? && Exec(s, steps).creator.next == s.creator.next
    decreases |steps|
  {
    if steps != [] {
      if steps[0].CallStep? {
        var c, act := steps[0].tid, steps[0].act;
        SetCallFrame(Effect(s, c, act), c, NextCall(s, c, act));
      }
      RollbackStays(Do(s, steps[0]), steps[1..]);
    }
  }

  /** Where create stands when it has ended: with a pool, or after its rollback, which may have kept the mutex. */
  ghost predicate CreateEnded(creator: CreatorPc, success: bool, began: nat, locked: bool) {
    if success then creator.Created?
    else creator.RollingBack? && creator.next == began
         && if locked then creator.call.ReturnedHolding? else creator.call.DestroyReturned?
  }

  /** threadpool_create and the creator's run in the transition system: the same number of threads made, the same
      pool returned or rolled back, and the same fields. Bad arguments make no pool and have no run. */
  method WholeCreateAgrees(threads: int, queueSize: int, startOk: nat -> bool,
                           lockOk: bool, broadcastOk: bool, joinOk: nat -> bool)
    returns (pool: ThreadPool?, began: nat, locked: bool, ghost made: ThreadPool?, ghost steps: seq<Step>)
    ensures made == null <==> !(0 < threads <= 64 && 0 < queueSize <= 65536)
    ensures made == null ==> pool == null && began == 0
    ensures made != null ==>
              var p := Params(threads, made.queue[..], 0);
              && |p.queue| == queueSize && IsRun(Init(p), steps)
              && var t := Exec(Init(p), steps);
                 && SameFields(made, t) && t.freed == made.freed
                 && (pool != null ==> pool == made && began == threads)
                 && CreateEnded(t.creator, pool != null, began, locked)
  {
    pool, began, locked, made := ThreadPool.Create(threads, queueSize, 0, startOk, lockOk, broadcastOk, true, joinOk);
    steps := [];
    if made != null {
      ghost var p := Params(threads, made.queue[..], 0);
      ghost var t;
      steps, t := SoloCreate(p, began, lockOk, broadcastOk, joinOk);
      ReachableRing(t);
      SameRing(made.View(), t.mem, [], []);
    }
  }
}
