/** Every step keeps the invariant. */
module PoolInvariantProof {
  import opened PoolTypes
  import opened PoolMachine
  import opened Weights
  import opened PoolInvariant

  lemma InitOk(p: Params)
    requires GoodParams(p)
    ensures Inv(Init(p))
  {
    var s := Init(p);
    assert s.accepted[..0] == [];
    SumZero(LiveW, s.workers);
    SumZero(BusyW, s.workers);
    SumZero(AsleepW, s.workers);
    forall k: nat ensures TicketOk(s, k) { SumZero(BelowW(k), s.workers); }
  }

  // ---------- Changing one call ----------

  /** A call that moves on changes nothing else of the state. */
  lemma SetCallFrame(s: State, tid: Tid, call: Call)
    requires Caller(s, tid)
    ensures var t := SetCall(s, tid, call);
            && t == s.(workers := t.workers, clients := t.clients, creator := t.creator)
            && |t.workers| == |s.workers| && |t.clients| == |s.clients|
            && CallOf(t, tid) == call && Caller(t, tid)
            && (forall o: Tid :: o != tid ==> CallOf(t, o) == CallOf(s, o))
            && (t.creator == s.creator || (tid.Creator? && t.creator == s.creator.(call := call)))
            && (t.clients == s.clients || tid.Client?)
  {
  }

  lemma SetCallHolds(s: State, tid: Tid, call: Call)
    requires Caller(s, tid)
    ensures var t := SetCall(s, tid, call);
            && (forall o: Tid :: o != tid ==> Holds(t, o) == Holds(s, o))
            && Holds(t, tid) == CallHolds(call)
            && Holds(s, tid) == CallHolds(CallOf(s, tid))
  {
  }

  lemma SetCallSum(s: State, tid: Tid, call: Call, w: Weight)
    requires Caller(s, tid) && !w.TaskCallW?
    ensures Sum(w, SetCall(s, tid, call).workers) == Sum(w, s.workers)
  {
    if tid.Worker? { SumUpdate(w, s.workers, tid.i, s.workers[tid.i].(call := call)); }
  }

  // ---------- Lock ----------

  lemma LockWorker(s: State, i: nat, act: WorkerAct)
    requires LockOk(s) && WorkerEnabled(s, i, act)
    ensures LockOk(DoWorker(s, i, act))
  {
    var t := DoWorker(s, i, act);
    assert Holds(s, Worker(i)) <==> s.lock == Some(Worker(i));
    forall tid ensures Holds(t, tid) <==> t.lock == Some(tid) {
      assert Holds(s, tid) <==> s.lock == Some(tid);
    }
  }

  lemma LockCreator(s: State, act: CreatorAct)
    requires LockOk(s) && CreationOk(s) && CreatorEnabled(s, act)
    ensures LockOk(DoCreator(s, act))
  {
    var t := DoCreator(s, act);
    forall tid ensures Holds(t, tid) <==> t.lock == Some(tid) {
      assert Holds(s, tid) <==> s.lock == Some(tid);
    }
  }

  // ---------- Ring ----------

  lemma ShapeWorker(s: State, i: nat, act: WorkerAct)
    requires ShapeOk(s) && WorkerEnabled(s, i, act)
    ensures ShapeOk(DoWorker(s, i, act))
  {
    if act.Test? && TurnOf(s.mem) == Take { GrabKeepsRing(s.mem, s.accepted, s.grabbed); }
  }

  lemma ShapeCreator(s: State, act: CreatorAct)
    requires ShapeOk(s) && CreatorEnabled(s, act)
    ensures ShapeOk(DoCreator(s, act))
  {
  }

  // ---------- Sums ----------

  predicate Wakes(act: CallAct) {
    act.SignalWakes? || act.BroadcastAll?
  }

  /** Weights that a call step leaves alone: all but the one about calls, and, if it wakes, those about sleep. */
  predicate Untouched(w: Weight, act: CallAct) {
    !w.TaskCallW? && (Wakes(act) ==> !w.AsleepW? && !w.AlertW?)
  }

  /** A call moves no worker except that it may wake sleepers. */
  lemma CallSum(s: State, c: Tid, act: CallAct, w: Weight)
    requires CallEnabled(s, c, act) && Untouched(w, act)
    ensures Sum(w, DoCall(s, c, act).workers) == Sum(w, s.workers)
  {
    if act.SignalWakes? { SumUpdate(w, s.workers, act.i, Woken); }
    if act.BroadcastAll? { SumWakeAll(w, s.workers); }
    SetCallSum(Effect(s, c, act), c, NextCall(s, c, act), w);
  }

  /** A worker's step changes a sum by the weight of its own program counter. */
  lemma WorkerSum(s: State, i: nat, act: WorkerAct, w: Weight)
    requires WorkerEnabled(s, i, act)
    ensures var t := DoWorker(s, i, act);
            |t.workers| == |s.workers|
            && Sum(w, t.workers) + Weigh(w, s.workers[i]) == Sum(w, s.workers) + Weigh(w, t.workers[i])
  {
    SumUpdate(w, s.workers, i, DoWorker(s, i, act).workers[i]);
  }

  lemma SpawnSum(s: State, act: CreatorAct, w: Weight)
    requires CreationOk(s) && CreatorEnabled(s, act)
    ensures Sum(w, DoCreator(s, act).workers) ==
            Sum(w, s.workers) + (if act.Spawn? then Weigh(w, AtLock) else 0)
  {
    if act.Spawn? {
      SumUpdate(w, s.workers, s.creator.next, AtLock);
      assert Weigh(w, NotCreated) == 0;
    }
  }

  predicate SameWorker(a: Pc, b: Pc) {
    b == a || (a.Asleep? && b.Woken?) || (a.Busy? && b.Busy? && b == a.(call := b.call))
  }

  /** t is s after the call step, seen one thread at a time. */
  ghost predicate Moved(s: State, c: Tid, act: CallAct, t: State)
    requires CallEnabled(s, c, act)
  {
    && t == Effect(s, c, act).(workers := t.workers, clients := t.clients, creator := t.creator)
    && |t.workers| == |s.workers| && |t.clients| == |s.clients|
    && (forall j :: 0 <= j < |s.workers| ==> SameWorker(s.workers[j], t.workers[j]))
    && (act.BroadcastAll? ==> forall j :: 0 <= j < |t.workers| ==> !t.workers[j].Asleep?)
    && (act.SignalWakes? ==> !t.workers[act.i].Asleep?)
    && (!Wakes(act) ==> forall j :: 0 <= j < |s.workers| ==> t.workers[j].Asleep? == s.workers[j].Asleep?)
    && (t.clients == s.clients || c.Client?)
    && (t.creator == s.creator
        || (c.Creator? && s.creator.RollingBack? && t.creator == s.creator.(call := NextCall(s, c, act))))
    && CallOf(t, c) == NextCall(s, c, act)
    && (forall o: Tid :: o != c ==> CallOf(t, o) == CallOf(s, o) && Holds(t, o) == Holds(s, o))
    && Holds(t, c) == CallHolds(NextCall(s, c, act))
    && Holds(s, c) == CallHolds(CallOf(s, c))
    && (forall w: Weight :: Untouched(w, act) ==> Sum(w, t.workers) == Sum(w, s.workers))
  }

  /** What an action does beside moving its own call leaves every other thread where it was, sleepers aside. */
  lemma EffectFrame(s: State, c: Tid, act: CallAct)
    requires CallEnabled(s, c, act)
    ensures var e := Effect(s, c, act);
            && |e.workers| == |s.workers| && e.clients == s.clients && e.creator == s.creator
            && (forall j :: 0 <= j < |s.workers| ==>
                  e.workers[j] == s.workers[j] || (s.workers[j].Asleep? && e.workers[j].Woken?))
            && (act.BroadcastAll? ==> forall j :: 0 <= j < |e.workers| ==> !e.workers[j].Asleep?)
            && (act.SignalWakes? ==> e.workers[act.i].Woken?)
            && (!Wakes(act) ==> e.workers == s.workers)
  {
  }

  lemma SameThreads(s: State, e: State)
    requires |e.workers| == |s.workers| && e.clients == s.clients && e.creator == s.creator
    requires forall j :: 0 <= j < |s.workers| ==>
               e.workers[j] == s.workers[j] || (s.workers[j].Asleep? && e.workers[j].Woken?)
    ensures forall o: Tid :: CallOf(e, o) == CallOf(s, o) && Holds(e, o) == Holds(s, o)
  {
  }

  lemma SetCallWorkers(s: State, c: Tid, call: Call)
    requires Caller(s, c)
    ensures var t := SetCall(s, c, call);
            |t.workers| == |s.workers|
            && forall j :: 0 <= j < |s.workers| ==>
                 t.workers[j] == s.workers[j]
                 || (s.workers[j].Busy? && t.workers[j] == s.workers[j].(call := call))
  {
  }

  lemma CallMoved(s: State, c: Tid, act: CallAct)
    requires CallEnabled(s, c, act)
    ensures Moved(s, c, act, DoCall(s, c, act))
  {
    var e, next := Effect(s, c, act), NextCall(s, c, act);
    EffectFrame(s, c, act);
    SameThreads(s, e);
    var t := SetCall(e, c, next);
    MovedFrom(s, c, act, e);
    forall w: Weight | Untouched(w, act) ensures Sum(w, t.workers) == Sum(w, s.workers) {
      CallSum(s, c, act, w);
    }
  }

  lemma MovedFrom(s: State, c: Tid, act: CallAct, e: State)
    requires CallEnabled(s, c, act) && e == Effect(s, c, act)
    requires |e.workers| == |s.workers| && e.clients == s.clients && e.creator == s.creator
    requires forall j :: 0 <= j < |s.workers| ==>
               e.workers[j] == s.workers[j] || (s.workers[j].Asleep? && e.workers[j].Woken?)
    requires act.BroadcastAll? ==> forall j :: 0 <= j < |e.workers| ==> !e.workers[j].Asleep?
    requires act.SignalWakes? ==> e.workers[act.i].Woken?
    requires !Wakes(act) ==> e.workers == s.workers
    requires forall o: Tid :: CallOf(e, o) == CallOf(s, o) && Holds(e, o) == Holds(s, o)
    ensures var t := SetCall(e, c, NextCall(s, c, act));
      (forall w: Weight :: Untouched(w, act) ==> Sum(w, t.workers) == Sum(w, s.workers)) ==>
        Moved(s, c, act, t)
  {
    SetCallWorkers(e, c, NextCall(s, c, act));
    SetCallFrame(e, c, NextCall(s, c, act));
    SetCallHolds(e, c, NextCall(s, c, act));
  }

  // ---------- Lock and ring under a call ----------

  lemma LockCall(s: State, c: Tid, act: CallAct, t: State)
    requires LockOk(s) && CallEnabled(s, c, act) && Moved(s, c, act, t)
    ensures LockOk(t)
  {
    assert Holds(s, c) <==> s.lock == Some(c);
    forall tid ensures Holds(t, tid) <==> t.lock == Some(tid) {
      assert Holds(s, tid) <==> s.lock == Some(tid);
    }
  }

  lemma ShapeCall(s: State, c: Tid, act: CallAct, t: State)
    requires ShapeOk(s) && CallEnabled(s, c, act) && Moved(s, c, act, t)
    ensures ShapeOk(t)
  {
    if act.AddRun? && AddVerdict(s.mem) == 0 {
      EnqueueKeepsRing(s.mem, s.accepted, s.grabbed, CallOf(s, c).task);
    }
  }

  // ---------- Tasks ----------

  predicate SameTask(a: Pc, b: Pc) {
    if a.Grabbed? || a.Busy? then (b.Grabbed? || b.Busy?) && b.ticket == a.ticket && b.task == a.task
    else !b.Grabbed? && !b.Busy?
  }

  lemma TasksSame(s: State, t: State)
    requires TasksOk(s) && t.grabbed == s.grabbed && t.completed == s.completed
    requires Sum(BusyW, t.workers) == Sum(BusyW, s.workers)
    requires |t.workers| == |s.workers|
    requires forall j :: 0 <= j < |s.workers| ==> SameTask(s.workers[j], t.workers[j])
    ensures TasksOk(t)
  {
  }

  lemma TasksTake(s: State, i: nat, x: Task, t: State)
    requires TasksOk(s) && i < |s.workers| && s.workers[i].Testing?
    requires t.workers == s.workers[i := Grabbed(|s.grabbed|, x)]
    requires t.grabbed == s.grabbed + [x] && t.completed == s.completed
    ensures TasksOk(t)
  {
    SumUpdate(BusyW, s.workers, i, Grabbed(|s.grabbed|, x));
  }

  lemma TasksFinish(s: State, i: nat)
    requires TasksOk(s) && WorkerEnabled(s, i, FinishTask)
    ensures TasksOk(DoWorker(s, i, FinishTask))
  {
    WorkerSum(s, i, FinishTask, BusyW);
  }

  lemma TasksWorker(s: State, i: nat, act: WorkerAct)
    requires TasksOk(s) && WorkerEnabled(s, i, act)
    ensures TasksOk(DoWorker(s, i, act))
  {
    if act.Test? && TurnOf(s.mem) == Take {
      TasksTake(s, i, s.mem.queue[s.mem.head], DoWorker(s, i, act));
    } else if act.FinishTask? {
      TasksFinish(s, i);
    } else {
      WorkerSum(s, i, act, BusyW);
      TasksSame(s, DoWorker(s, i, act));
    }
  }

  lemma TasksCall(s: State, c: Tid, act: CallAct, t: State)
    requires TasksOk(s) && CallEnabled(s, c, act) && Moved(s, c, act, t)
    ensures TasksOk(t)
  {
    TasksSame(s, t);
  }

  lemma TasksCreator(s: State, act: CreatorAct)
    requires TasksOk(s) && CreationOk(s) && CreatorEnabled(s, act)
    ensures TasksOk(DoCreator(s, act))
  {
    SpawnSum(s, act, BusyW);
  }

  // ---------- Tickets ----------

  /** What one worker no longer carries has been completed, and what it carries anew has been grabbed. */
  lemma TicketsMove(s: State, t: State, i: nat, k: nat)
    requires TicketOk(s, k) && i < |s.workers| == |t.workers| && t.workers == s.workers[i := t.workers[i]]
    requires Below(t.completed, k) + Weigh(BelowW(k), t.workers[i]) + Min(k, |s.grabbed|) ==
             Below(s.completed, k) + Weigh(BelowW(k), s.workers[i]) + Min(k, |t.grabbed|)
    ensures TicketOk(t, k)
  {
    SumUpdate(BelowW(k), s.workers, i, t.workers[i]);
  }

  lemma TicketsBalance(s: State, i: nat, act: WorkerAct, k: nat)
    requires WorkerEnabled(s, i, act)
    ensures var t := DoWorker(s, i, act);
            && |t.workers| == |s.workers| && t.workers == s.workers[i := t.workers[i]]
            && Below(t.completed, k) + Weigh(BelowW(k), t.workers[i]) + Min(k, |s.grabbed|) ==
               Below(s.completed, k) + Weigh(BelowW(k), s.workers[i]) + Min(k, |t.grabbed|)
  {
    if act.FinishTask? { BelowAppend(s.completed, s.workers[i].ticket, k); }
  }

  lemma TicketsWorker(s: State, i: nat, act: WorkerAct)
    requires TicketsOk(s) && WorkerEnabled(s, i, act)
    ensures TicketsOk(DoWorker(s, i, act))
  {
    var t := DoWorker(s, i, act);
    forall k: nat ensures TicketOk(t, k) {
      assert TicketOk(s, k);
      TicketsBalance(s, i, act, k);
      TicketsMove(s, t, i, k);
    }
  }

  lemma TicketsCall(s: State, c: Tid, act: CallAct, t: State)
    requires TicketsOk(s) && CallEnabled(s, c, act) && Moved(s, c, act, t)
    ensures TicketsOk(t)
  {
    forall k: nat ensures TicketOk(t, k) { assert TicketOk(s, k); }
  }

  lemma TicketsCreator(s: State, act: CreatorAct)
    requires TicketsOk(s) && CreationOk(s) && CreatorEnabled(s, act)
    ensures TicketsOk(DoCreator(s, act))
  {
    forall k: nat ensures TicketOk(DoCreator(s, act), k) {
      assert TicketOk(s, k);
      SpawnSum(s, act, BelowW(k));
    }
  }

  // ---------- Overtaking ----------

  lemma {:induction false} BelowWSum(k: nat, ws: seq<Pc>, i: nat)
    requires i < |ws| && Weigh(BelowW(k), ws[i]) == 0
    ensures Sum(BelowW(k), ws) < |ws|
  {
    SumAtMost(BelowW(k), ws[1..], 1);
    if i > 0 { BelowWSum(k, ws[1..], i - 1); }
  }

  lemma OvertakeWorker(s: State, i: nat, act: WorkerAct)
    requires TasksOk(s) && TicketsOk(s) && OvertakeOk(s) && WorkerEnabled(s, i, act)
    ensures OvertakeOk(DoWorker(s, i, act))
  {
    var t := DoWorker(s, i, act);
    if act.FinishTask? {
      var k := s.workers[i].ticket;
      assert TicketOk(s, k);
      BelowWSum(k, s.workers, i);
      forall p | 0 <= p < |t.completed|
        ensures Below(t.completed[..p], t.completed[p]) + |t.workers| > t.completed[p]
      {
        assert t.completed[..p] == s.completed[..p];
        if p == |s.completed| { assert s.completed[..p] == s.completed; }
      }
    }
  }

  lemma OvertakeCall(s: State, c: Tid, act: CallAct, t: State)
    requires OvertakeOk(s) && CallEnabled(s, c, act) && Moved(s, c, act, t)
    ensures OvertakeOk(t)
  {
  }

  lemma OvertakeCreator(s: State, act: CreatorAct)
    requires OvertakeOk(s) && CreatorEnabled(s, act)
    ensures OvertakeOk(DoCreator(s, act))
  {
  }

  // ---------- Creation ----------

  /** What leaves creation alone: no worker is made, and started moves with the live count. */
  lemma CreationSame(s: State, t: State)
    requires CreationOk(s)
    requires t.mem.threadCount == s.mem.threadCount
    requires t.mem.started - Sum(LiveW, t.workers) == s.mem.started - Sum(LiveW, s.workers)
    requires s.creator.WriteStarted? ==> t.mem.started == s.mem.started
    requires |t.workers| == |s.workers|
    requires forall j :: 0 <= j < |s.workers| ==> t.workers[j].NotCreated? == s.workers[j].NotCreated?
    requires t.creator == s.creator
             || (s.creator.RollingBack? && t.creator.RollingBack? && t.creator.next == s.creator.next
                 && !t.creator.call.Idle?)
    requires Starting(s) ==> t.closing == s.closing
    requires !s.creator.Created? ==> t.accepted == s.accepted && t.clients == s.clients
    ensures CreationOk(t)
  {
  }

  lemma WorkerFrame(s: State, i: nat, act: WorkerAct)
    requires WorkerEnabled(s, i, act)
    ensures var t := DoWorker(s, i, act);
            && t == s.(workers := t.workers, mem := t.mem, lock := t.lock,
                       grabbed := t.grabbed, completed := t.completed)
            && t.workers == s.workers[i := t.workers[i]]
            && !s.workers[i].NotCreated? && !t.workers[i].NotCreated?
            && t.mem.threadCount == s.mem.threadCount
            && t.mem.started - Weigh(LiveW, t.workers[i]) == s.mem.started - Weigh(LiveW, s.workers[i])
            && (!Leaving(s.workers[i]) ==> t.mem.started == s.mem.started)
  {
  }

  lemma CreationWorker(s: State, i: nat, t: State)
    requires CreationOk(s) && i < |s.workers| == |t.workers|
    requires t == s.(workers := t.workers, mem := t.mem, lock := t.lock, grabbed := t.grabbed, completed := t.completed)
    requires t.workers == s.workers[i := t.workers[i]]
    requires !s.workers[i].NotCreated? && !t.workers[i].NotCreated?
    requires t.mem.threadCount == s.mem.threadCount
    requires t.mem.started - Weigh(LiveW, t.workers[i]) == s.mem.started - Weigh(LiveW, s.workers[i])
    requires Starting(s) ==> t.mem.started == s.mem.started
    ensures CreationOk(t)
  {
    SumUpdate(LiveW, s.workers, i, t.workers[i]);
    CreationSame(s, t);
  }

  /** Until create has returned the pool, only the creator's own rollback can be inside a call. */
  lemma OnlyRollback(s: State, c: Tid, act: CallAct)
    requires ShapeOk(s) && TasksOk(s) && CreationOk(s) && CallEnabled(s, c, act) && !s.creator.Created?
    ensures c.Creator? && s.creator.RollingBack?
  {
  }

  lemma CreationCall(s: State, c: Tid, act: CallAct, t: State)
    requires CreationOk(s) && CallOk(s, c) && CallEnabled(s, c, act) && Moved(s, c, act, t)
    requires !s.creator.Created? ==> c.Creator? && s.creator.RollingBack?
    ensures CreationOk(t)
  {
    CreationSame(s, t);
  }

  lemma CreationCreator(s: State, act: CreatorAct)
    requires CreationOk(s) && CreatorEnabled(s, act)
    ensures CreationOk(DoCreator(s, act))
  {
    SpawnSum(s, act, LiveW);
  }

  // ---------- Shutdown ----------

  predicate SameExit(a: Pc, b: Pc) {
    (b.Asleep? ==> a.Asleep?) && (Leaving(b) ==> Leaving(a)) && (a.Exited? ==> b.Exited?)
  }

  /** Actions that touch neither ring, flag nor histories leave CloseOk alone. */
  lemma CloseSame(s: State, t: State)
    requires CloseOk(s)
    requires t.mem.(started := s.mem.started) == s.mem
    requires t.closing == s.closing && t.broadcast == s.broadcast && t.freed == s.freed
    requires t.accepted == s.accepted && t.grabbed == s.grabbed
    requires t.creator.RollingBack? == s.creator.RollingBack?
    requires s.broadcast || s.closing == None
             || (t.lock == s.lock && BeforeBroadcast(CallOf(t, s.closing.value.closer)))
    requires |t.workers| == |s.workers|
    requires forall j :: 0 <= j < |s.workers| ==> SameExit(s.workers[j], t.workers[j])
    ensures CloseOk(t)
  {
  }

  lemma CloseTest(s: State, i: nat)
    requires LockOk(s) && CloseOk(s) && WorkerEnabled(s, i, Test) && TurnOf(s.mem) != Take
    ensures CloseOk(DoWorker(s, i, Test))
  {
    assert Holds(s, Worker(i)) <==> s.lock == Some(Worker(i));
  }

  lemma CloseTake(s: State, i: nat)
    requires LockOk(s) && CloseOk(s) && WorkerEnabled(s, i, Test) && TurnOf(s.mem) == Take
    ensures CloseOk(DoWorker(s, i, Test))
  {
    assert Holds(s, Worker(i)) <==> s.lock == Some(Worker(i));
    assert forall j :: 0 <= j < |s.workers| ==> !Leaving(s.workers[j]);
  }

  lemma CloseWorker(s: State, i: nat, act: WorkerAct)
    requires LockOk(s) && CloseOk(s) && WorkerEnabled(s, i, act)
    ensures CloseOk(DoWorker(s, i, act))
  {
    if act.Test? {
      if TurnOf(s.mem) == Take { CloseTake(s, i); } else { CloseTest(s, i); }
    } else {
      assert Holds(s, Worker(i)) <==> s.lock == Some(Worker(i));
      CloseSame(s, DoWorker(s, i, act));
    }
  }

  lemma CloseFlag(s: State, c: Tid, t: State)
    requires ShapeOk(s) && LockOk(s) && TasksOk(s) && CreationOk(s) && CallOk(s, c) && CloseOk(s)
    requires CallEnabled(s, c, DestroyRun) && Moved(s, c, DestroyRun, t)
    ensures CloseOk(t)
  {
    assert Holds(s, c) <==> s.lock == Some(c);
    if !s.creator.Created? { OnlyRollback(s, c, DestroyRun); }
  }

  lemma CloseChange(s: State, c: Tid, act: CallAct, t: State)
    requires CallOk(s, c) && CloseOk(s) && CallEnabled(s, c, act) && Moved(s, c, act, t)
    requires act.AddRun? || act.BroadcastAll? || act.FreePool?
    ensures CloseOk(t)
  {
  }

  lemma CloseQuiet(s: State, c: Tid, act: CallAct, t: State)
    requires LockOk(s) && CallOk(s, c) && CloseOk(s) && CallEnabled(s, c, act) && Moved(s, c, act, t)
    requires !act.DestroyRun? && !act.AddRun? && !act.BroadcastAll? && !act.FreePool?
    ensures CloseOk(t)
  {
    assert Holds(s, c) <==> s.lock == Some(c);
    CloseSame(s, t);
  }

  lemma CloseCall(s: State, c: Tid, act: CallAct, t: State)
    requires ShapeOk(s) && LockOk(s) && TasksOk(s) && CreationOk(s) && CallOk(s, c) && CloseOk(s)
    requires CallEnabled(s, c, act) && Moved(s, c, act, t)
    ensures CloseOk(t)
  {
    if act.DestroyRun? {
      CloseFlag(s, c, t);
    } else if act.AddRun? || act.BroadcastAll? || act.FreePool? {
      CloseChange(s, c, act, t);
    } else {
      CloseQuiet(s, c, act, t);
    }
  }

  lemma CloseCreator(s: State, act: CreatorAct)
    requires CreationOk(s) && CloseOk(s) && CreatorEnabled(s, act)
    ensures CloseOk(DoCreator(s, act))
  {
  }

  // ---------- Calls ----------

  /** A call stays as it should be while the facts it rests on stay or grow. */
  lemma CallSame(s: State, t: State, tid: Tid)
    requires CallOk(s, tid) && CallOf(t, tid) == CallOf(s, tid)
    requires s.accepted <= t.accepted && s.failedSignals <= t.failedSignals
    requires t.mem.threadCount == s.mem.threadCount || s.closing == None
    requires s.closing == None || t.closing == s.closing
    requires t.closing == s.closing || !tid.Creator?
    requires (t.broadcast == s.broadcast && t.freed == s.freed) || !Closer(s, tid)
    requires |t.workers| == |s.workers|
    requires forall j :: 0 <= j < |s.workers| && s.workers[j].Exited? ==> t.workers[j].Exited?
    ensures CallOk(t, tid)
  {
  }

  /** A worker's step moves no call but that of the task it finishes. */
  lemma WorkerCalls(s: State, i: nat, act: WorkerAct)
    requires WorkerEnabled(s, i, act)
    ensures var t := DoWorker(s, i, act);
            && (forall o: Tid :: o != Worker(i) ==> CallOf(t, o) == CallOf(s, o))
            && CallOf(t, Worker(i)) == Idle
            && (forall j :: 0 <= j < |s.workers| && s.workers[j].Exited? ==> t.workers[j].Exited?)
  {
  }

  lemma CallsWorker(s: State, i: nat, act: WorkerAct)
    requires CallsOk(s) && WorkerEnabled(s, i, act)
    ensures CallsOk(DoWorker(s, i, act))
  {
    var t := DoWorker(s, i, act);
    WorkerCalls(s, i, act);
    forall tid ensures CallOk(t, tid) {
      assert CallOk(s, tid);
      if tid != Worker(i) { CallSame(s, t, tid); }
    }
  }

  /** Once every counted worker has exited, the count of started workers is back at zero. */
  lemma NoneStarted(s: State)
    requires CreationOk(s) && s.closing.Some? && AllExited(s, s.mem.threadCount)
    ensures s.mem.started == 0
  {
    SumZero(LiveW, s.workers);
  }

  lemma CallsSelf(s: State, c: Tid, act: CallAct, t: State)
    requires CreationOk(s) && CallOk(s, c) && CallEnabled(s, c, act) && Moved(s, c, act, t)
    requires act.StartAdd? || act.StartDestroy? || act.TakeLock? || act.LockFails? || act.AddRelease?
             || act.SignalWakes? || act.SignalNobody? || act.SignalFails?
    ensures CallOk(t, c)
  {
  }

  lemma DestroysSelf(s: State, c: Tid, act: CallAct, t: State)
    requires CreationOk(s) && CallOk(s, c) && CallEnabled(s, c, act) && Moved(s, c, act, t)
    requires act.BroadcastAll? || act.BroadcastFails? || act.DestroyRelease?
             || act.JoinNext? || act.JoinFails? || act.JoinDone?
    ensures CallOk(t, c)
  {
  }

  lemma CallsSelfChange(s: State, c: Tid, act: CallAct, t: State)
    requires CreationOk(s) && CallOk(s, c) && CloseOk(s) && CallEnabled(s, c, act) && Moved(s, c, act, t)
    requires act.AddRun? || act.DestroyRun? || act.FreePool?
    ensures CallOk(t, c)
  {
    if act.FreePool? { NoneStarted(s); }
  }

  /** What one call changes of the facts that other calls rest on. */
  lemma CallGlobals(s: State, c: Tid, act: CallAct, t: State)
    requires CallOk(s, c) && CloseOk(s) && CallEnabled(s, c, act) && Moved(s, c, act, t)
    ensures s.accepted <= t.accepted && s.failedSignals <= t.failedSignals
    ensures t.mem.threadCount == s.mem.threadCount
    ensures s.closing == None || t.closing == s.closing
    ensures (t.broadcast == s.broadcast && t.freed == s.freed) || Closer(s, c)
  {
  }

  /** A creator that is rolling back is the only thread in a call. */
  lemma CallsOtherCreator(s: State, c: Tid, act: CallAct, t: State)
    requires ShapeOk(s) && TasksOk(s) && CreationOk(s) && !c.Creator?
    requires CallEnabled(s, c, act) && Moved(s, c, act, t)
    ensures CallOk(t, Creator)
  {
    if !s.creator.Created? { OnlyRollback(s, c, act); }
    assert CallOf(t, Creator) == Idle;
  }

  lemma CallsCall(s: State, c: Tid, act: CallAct, t: State)
    requires ShapeOk(s) && TasksOk(s) && CreationOk(s) && CallsOk(s) && CloseOk(s)
    requires CallEnabled(s, c, act) && Moved(s, c, act, t)
    ensures CallsOk(t)
  {
    assert CallOk(s, c);
    CallGlobals(s, c, act, t);
    forall tid ensures CallOk(t, tid) {
      assert CallOk(s, tid);
      if tid == c {
        if act.AddRun? || act.DestroyRun? || act.FreePool? {
          CallsSelfChange(s, c, act, t);
        } else if CallOf(s, c).DestroyBroadcast? || CallOf(s, c).DestroyUnlock? || CallOf(s, c).DestroyJoin? {
          DestroysSelf(s, c, act, t);
        } else {
          CallsSelf(s, c, act, t);
        }
      } else if tid.Creator? {
        CallsOtherCreator(s, c, act, t);
      } else {
        CallSame(s, t, tid);
      }
    }
  }

  lemma CallsCreator(s: State, act: CreatorAct)
    requires CreationOk(s) && CallsOk(s) && CreatorEnabled(s, act)
    ensures CallsOk(DoCreator(s, act))
  {
    forall tid ensures CallOk(DoCreator(s, act), tid) {
      assert CallOk(s, tid);
    }
  }

  // ---------- Wake-ups ----------

  lemma WakeWorker(s: State, i: nat, act: WorkerAct)
    requires LockOk(s) && CloseOk(s) && WakeOk(s) && WorkerEnabled(s, i, act)
    ensures WakeOk(DoWorker(s, i, act))
  {
    var t := DoWorker(s, i, act);
    assert Holds(s, Worker(i)) <==> s.lock == Some(Worker(i));
    WorkerSum(s, i, act, AsleepW);
    WorkerSum(s, i, act, AlertW);
    SumZero(AsleepW, s.workers);
    assert t.lock.Some? ==> t.lock.value == Worker(i) || CallOf(t, t.lock.value) == CallOf(s, t.lock.value);
  }

  lemma WakeSignal(s: State, c: Tid, act: CallAct)
    requires LockOk(s) && WakeOk(s) && CallEnabled(s, c, act)
    requires act.SignalWakes? || act.SignalNobody? || act.SignalFails? || act.BroadcastAll?
    ensures WakeOk(DoCall(s, c, act))
  {
    assert Holds(s, c) <==> s.lock == Some(c);
    var e := Effect(s, c, act);
    SetCallFrame(e, c, NextCall(s, c, act));
    SetCallSum(e, c, NextCall(s, c, act), AsleepW);
    SetCallSum(e, c, NextCall(s, c, act), AlertW);
    SumZero(AsleepW, e.workers);
    if act.SignalWakes? {
      SumUpdate(AsleepW, s.workers, act.i, Woken);
      SumUpdate(AlertW, s.workers, act.i, Woken);
    }
  }

  lemma WakeAdd(s: State, c: Tid, t: State)
    requires LockOk(s) && WakeOk(s) && CallEnabled(s, c, AddRun) && Moved(s, c, AddRun, t)
    ensures WakeOk(t)
  {
    assert Holds(s, c) <==> s.lock == Some(c);
    assert Sum(AsleepW, t.workers) == Sum(AsleepW, s.workers);
    assert Sum(AlertW, t.workers) == Sum(AlertW, s.workers);
  }

  lemma WakeQuiet(s: State, c: Tid, act: CallAct, t: State)
    requires LockOk(s) && WakeOk(s) && CallEnabled(s, c, act) && Moved(s, c, act, t) && !act.AddRun?
    requires !act.SignalWakes? && !act.SignalNobody? && !act.SignalFails? && !act.BroadcastAll?
    ensures WakeOk(t)
  {
    assert Holds(s, c) <==> s.lock == Some(c);
    assert Sum(AsleepW, t.workers) == Sum(AsleepW, s.workers);
    assert Sum(AlertW, t.workers) == Sum(AlertW, s.workers);
    assert t.mem.count == s.mem.count && t.failedSignals == s.failedSignals;
  }

  lemma WakeCall(s: State, c: Tid, act: CallAct)
    requires LockOk(s) && WakeOk(s) && CallEnabled(s, c, act)
    ensures WakeOk(DoCall(s, c, act))
  {
    if act.SignalWakes? || act.SignalNobody? || act.SignalFails? || act.BroadcastAll? {
      WakeSignal(s, c, act);
    } else {
      CallMoved(s, c, act);
      if act.AddRun? { WakeAdd(s, c, DoCall(s, c, act)); } else { WakeQuiet(s, c, act, DoCall(s, c, act)); }
    }
  }

  lemma WakeCreator(s: State, act: CreatorAct)
    requires CreationOk(s) && CallsOk(s) && WakeOk(s) && CreatorEnabled(s, act)
    ensures WakeOk(DoCreator(s, act))
  {
    SpawnSum(s, act, AsleepW);
    SpawnSum(s, act, AlertW);
    if s.lock.Some? {
      assert CallOk(s, s.lock.value);
      assert CallOf(DoCreator(s, act), s.lock.value).AddSignal? <==> CallOf(s, s.lock.value).AddSignal?;
    }
  }

  // ---------- After free ----------

  /** Nobody can take a step once the pool is freed. */
  lemma NothingEnabled(s: State, step: Step)
    requires CreationOk(s) && CallsOk(s) && CloseOk(s) && s.freed
    ensures !Enabled(s, step)
  {
    if step.CallStep? { assert CallOk(s, step.tid); }
  }

  lemma RoutinesCall(s: State, c: Tid, act: CallAct, t: State)
    requires RoutinesOk(s) && CallOk(s, c) && CallEnabled(s, c, act) && Moved(s, c, act, t)
    ensures RoutinesOk(t)
  {
  }

  lemma FreedCall(s: State, c: Tid, act: CallAct, t: State)
    requires CreationOk(s) && CallOk(s, c) && !s.freed && CallEnabled(s, c, act) && Moved(s, c, act, t)
    ensures FreedOk(t)
  {
    if act.FreePool? { NoneStarted(s); }
  }

  // ---------- All together ----------

  lemma InvWorker(s: State, i: nat, act: WorkerAct)
    requires Inv(s) && WorkerEnabled(s, i, act)
    ensures Inv(DoWorker(s, i, act))
  {
    ShapeWorker(s, i, act);
    LockWorker(s, i, act);
    WorkerFrame(s, i, act);
    CreationWorker(s, i, DoWorker(s, i, act));
    TasksWorker(s, i, act);
    TicketsWorker(s, i, act);
    OvertakeWorker(s, i, act);
    CallsWorker(s, i, act);
    CloseWorker(s, i, act);
    WakeWorker(s, i, act);
    if s.freed { NothingEnabled(s, WorkerStep(i, act)); }
  }

  lemma InvCallAt(s: State, c: Tid, act: CallAct, t: State)
    requires Inv(s) && CallEnabled(s, c, act) && Moved(s, c, act, t) && WakeOk(t) && !s.freed
    ensures Inv(t)
  {
    assert CallOk(s, c);
    ShapeCall(s, c, act, t);
    LockCall(s, c, act, t);
    if !s.creator.Created? { OnlyRollback(s, c, act); }
    CreationCall(s, c, act, t);
    TasksCall(s, c, act, t);
    TicketsCall(s, c, act, t);
    OvertakeCall(s, c, act, t);
    CallsCall(s, c, act, t);
    CloseCall(s, c, act, t);
    RoutinesCall(s, c, act, t);
    FreedCall(s, c, act, t);
  }

  lemma InvCall(s: State, c: Tid, act: CallAct)
    requires Inv(s) && CallEnabled(s, c, act)
    ensures Inv(DoCall(s, c, act))
  {
    if s.freed {
      NothingEnabled(s, CallStep(c, act));
    } else {
      CallMoved(s, c, act);
      WakeCall(s, c, act);
      InvCallAt(s, c, act, DoCall(s, c, act));
    }
  }

  lemma InvCreator(s: State, act: CreatorAct)
    requires Inv(s) && CreatorEnabled(s, act)
    ensures Inv(DoCreator(s, act))
  {
    ShapeCreator(s, act);
    LockCreator(s, act);
    CreationCreator(s, act);
    TasksCreator(s, act);
    TicketsCreator(s, act);
    OvertakeCreator(s, act);
    CallsCreator(s, act);
    CloseCreator(s, act);
    WakeCreator(s, act);
    if s.freed { NothingEnabled(s, CreatorStep(act)); }
  }

  lemma InvStep(s: State, step: Step)
    requires Inv(s) && Enabled(s, step)
    ensures Inv(Do(s, step))
  {
    match step {
      case CreatorStep(act) => InvCreator(s, act);
      case WorkerStep(i, act) => InvWorker(s, i, act);
      case CallStep(tid, act) => InvCall(s, tid, act);
    }
  }

  lemma {:induction false} InvRun(s: State, steps: seq<Step>)
    requires Inv(s) && IsRun(s, steps)
    ensures Inv(Exec(s, steps))
    decreases |steps|
  {
    if steps != [] {
      InvStep(s, steps[0]);
      InvRun(Do(s, steps[0]), steps[1..]);
    }
  }

  lemma ReachableInv(s: State)
    requires Reachable(s)
    ensures Inv(s)
  {
    var p: Params, steps: seq<Step> :| GoodParams(p) && IsRun(Init(p), steps) && Exec(Init(p), steps) == s;
    InitOk(p);
    InvRun(Init(p), steps);
  }
}
