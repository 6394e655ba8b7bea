/** Exactly-once execution, order of completion, starvation and backpressure. */
module OrderTheorems {
  import opened PoolTypes
  import opened PoolMachine
  import opened Weights
  import opened PoolInvariant
  import opened PoolInvariantProof
  import opened PoolRuns
  import opened ShutdownTheorems

  predicate Carries(pc: Pc, k: nat) {
    (pc.Grabbed? || pc.Busy?) && pc.ticket == k
  }

  function Carriers(ws: seq<Pc>, k: nat): nat {
    if ws == [] then 0 else (if Carries(ws[0], k) then 1 else 0) + Carriers(ws[1..], k)
  }

  lemma {:induction false} CarriersAreTheDifference(ws: seq<Pc>, k: nat)
    ensures Sum(BelowW(k + 1), ws) == Sum(BelowW(k), ws) + Carriers(ws, k)
  {
    if ws != [] { CarriersAreTheDifference(ws[1..], k); }
  }

  lemma {:induction false} NoCarrier(ws: seq<Pc>, k: nat)
    ensures Carriers(ws, k) == 0 <==> forall i :: 0 <= i < |ws| ==> !Carries(ws[i], k)
  {
    if ws != [] {
      NoCarrier(ws[1..], k);
      assert forall i :: 1 <= i < |ws| ==> ws[i] == ws[1..][i - 1];
    }
  }

  lemma {:induction false} OneCarrier(ws: seq<Pc>, k: nat) returns (i: nat)
    requires Carriers(ws, k) == 1
    ensures i < |ws| && Carries(ws[i], k)
    ensures forall j :: 0 <= j < |ws| && Carries(ws[j], k) ==> j == i
  {
    if Carries(ws[0], k) {
      i := 0;
      NoCarrier(ws[1..], k);
      assert forall j :: 1 <= j < |ws| ==> ws[j] == ws[1..][j - 1];
    } else {
      var j := OneCarrier(ws[1..], k);
      i := j + 1;
      assert forall j :: 1 <= j < |ws| ==> ws[j] == ws[1..][j - 1];
    }
  }

  /** Tickets at one place each. */
  ghost predicate InOnePlace(s: State, k: nat) {
    || (multiset(s.completed)[k] == 1 && forall i :: 0 <= i < |s.workers| ==> !Carries(s.workers[i], k))
    || (k !in s.completed
        && exists i :: 0 <= i < |s.workers| && Carries(s.workers[i], k)
                       && forall j :: 0 <= j < |s.workers| && Carries(s.workers[j], k) ==> j == i)
  }

  /** Exactly once: each accepted task is pending at its place in the ring, or with exactly one worker,
      or completed once; never in two of these states and never twice in one. */
  lemma ExactlyOnce(s: State, k: nat)
    requires Reachable(s) && k < |s.accepted|
    ensures 0 < |s.mem.queue| && s.accepted == s.grabbed + Pending(s.mem)
    ensures k < |s.grabbed| ==> InOnePlace(s, k)
    ensures k >= |s.grabbed| ==>
              k !in s.completed && forall i :: 0 <= i < |s.workers| ==> !Carries(s.workers[i], k)
    ensures forall i :: 0 <= i < |s.workers| && Carries(s.workers[i], k) ==> s.workers[i].task == s.accepted[k]
  {
    ReachableInv(s);
    Conservation(s.mem, s.accepted, s.grabbed);
    assert TicketOk(s, k) && TicketOk(s, k + 1);
    Occurrences(s.completed, k);
    CarriersAreTheDifference(s.workers, k);
    NoCarrier(s.workers, k);
    if k < |s.grabbed| && Carriers(s.workers, k) == 1 {
      var i := OneCarrier(s.workers, k);
    }
  }

  lemma {:induction false} BelowIsLength(tickets: seq<nat>, k: nat)
    ensures Below(tickets, k) <= |tickets|
  {
    if tickets != [] { BelowIsLength(tickets[..|tickets| - 1], k); }
  }

  /** Bounded overtaking: when a task completes, at most threads - 1 of those accepted before it have
      not completed yet. */
  lemma BoundedOvertaking(s: State, p: nat)
    requires Reachable(s) && p < |s.completed|
    ensures s.completed[p] - Below(s.completed[..p], s.completed[p]) <= |s.workers| - 1
    ensures s.completed[p] <= p + |s.workers| - 1
  {
    ReachableInv(s);
    BelowIsLength(s.completed[..p], s.completed[p]);
  }

  lemma RepeatCounts(c: seq<nat>, p: nat, q: nat)
    requires p < q < |c| && c[p] == c[q]
    ensures multiset(c)[c[p]] >= 2
  {
    assert c == c[..q] + c[q..];
    assert c[..q][p] == c[p] && c[q..][0] == c[p];
  }

  /** No ticket completes twice. */
  lemma NoRepeat(s: State, p: nat, q: nat)
    requires Reachable(s) && p < q < |s.completed|
    ensures s.completed[p] != s.completed[q]
  {
    ReachableInv(s);
    var x := s.completed[p];
    assert TicketOk(s, x) && TicketOk(s, x + 1);
    Occurrences(s.completed, x);
    CarriersAreTheDifference(s.workers, x);
    if s.completed[q] == x { RepeatCounts(s.completed, p, q); }
  }

  /** With one worker, completion order is acceptance order. */
  lemma {:induction false} SingleWorkerOrder(s: State, p: nat)
    requires Reachable(s) && |s.workers| == 1 && p < |s.completed|
    ensures s.completed[p] == p
  {
    BoundedOvertaking(s, p);
    var x := s.completed[p];
    if x < p {
      SingleWorkerOrder(s, x);
      NoRepeat(s, x, p);
    }
  }

  /** The task that was accepted as number k: taken once more than k grabs are made, else still in its place. */
  lemma PlaceOf(t: State, k: nat)
    requires Reachable(t) && k < |t.accepted|
    ensures 0 < |t.mem.queue|
    ensures if k < |t.grabbed| then t.grabbed[k] == t.accepted[k]
            else k - |t.grabbed| < t.mem.count && Pending(t.mem)[k - |t.grabbed|] == t.accepted[k]
  {
    ReachableInv(t);
    if k >= |t.grabbed| { PendingAt(t.mem, t.accepted, t.grabbed, k - |t.grabbed|); }
  }

  /** Where task number k is after a run with so many grabs. */
  lemma PlaceAfter(a: State, steps: seq<Step>, k: nat)
    requires Reachable(a) && IsRun(a, steps) && |a.grabbed| <= k < |a.accepted|
    ensures var t, p, g := Exec(a, steps), k - |a.grabbed|, Grabs(a, steps);
            && 0 < |t.mem.queue|
            && (g > p ==> |t.grabbed| > k && t.grabbed[k] == a.accepted[k])
            && (g <= p ==> t.mem.count > p - g && Pending(t.mem)[p - g] == a.accepted[k])
  {
    RunFacts(a, steps);
    assert a.accepted[k] == Exec(a, steps).accepted[k];
    PlaceOf(Exec(a, steps), k);
  }

  lemma AcceptedLast(s: State, c: Tid)
    requires CallEnabled(s, c, AddRun) && NextCall(s, c, AddRun).AddSignal?
    ensures var t := DoCall(s, c, AddRun);
            t.accepted == s.accepted + [CallOf(s, c).task] && t.grabbed == s.grabbed
  {
    CallMoved(s, c, AddRun);
  }

  lemma StarvationAfter(s: State, a: State, task: Task, steps: seq<Step>)
    requires Reachable(s) && Reachable(a) && IsRun(a, steps)
    requires a.accepted == s.accepted + [task] && a.grabbed == s.grabbed
    ensures var p, t, g := s.mem.count, Exec(a, steps), Grabs(a, steps);
            && 0 < |t.mem.queue|
            && (g > p ==> |t.grabbed| > |s.grabbed| + p && t.grabbed[|s.grabbed| + p] == task)
            && (g <= p ==> t.mem.count > p - g && Pending(t.mem)[p - g] == task)
  {
    WrappedIndices(s);
    PlaceAfter(a, steps, |s.accepted|);
  }

  /** A task accepted behind p pending ones is taken by exactly the (p+1)-th later grab, and until then it
      has exactly the grabs made so far fewer tasks in front of it, whatever adds interleave. */
  lemma StarvationBound(s: State, c: Tid, steps: seq<Step>)
    requires Reachable(s) && CallEnabled(s, c, AddRun) && NextCall(s, c, AddRun).AddSignal?
    requires IsRun(DoCall(s, c, AddRun), steps)
    ensures var p := s.mem.count;
            var after := DoCall(s, c, AddRun);
            var t := Exec(after, steps);
            var task := CallOf(s, c).task;
            var g := Grabs(after, steps);
            && 0 < |t.mem.queue|
            && (g > p ==> |t.grabbed| > |s.grabbed| + p && t.grabbed[|s.grabbed| + p] == task)
            && (g <= p ==> t.mem.count > p - g && Pending(t.mem)[p - g] == task)
  {
    ReachableStep(s, CallStep(c, AddRun));
    AcceptedLast(s, c);
    StarvationAfter(s, DoCall(s, c, AddRun), CallOf(s, c).task, steps);
  }

  /** Backpressure: accepted but unfinished tasks are the pending ones and those with a worker. */
  lemma Backpressure(s: State)
    requires Reachable(s)
    ensures |s.accepted| - |s.completed| == s.mem.count + Sum(BusyW, s.workers)
    ensures |s.accepted| - |s.completed| <= |s.mem.queue| + |s.workers| <= 65536 + 64
  {
    ReachableInv(s);
    SumAtMost(BusyW, s.workers, 1);
  }

  /** The wrapped indices agree with the unbounded counters, and stay well inside a C int. */
  lemma WrappedIndices(s: State)
    requires Reachable(s)
    ensures 0 < |s.mem.queue| <= 65536
    ensures s.mem.head == |s.grabbed| % |s.mem.queue| && s.mem.tail == |s.accepted| % |s.mem.queue|
    ensures s.mem.count == |s.accepted| - |s.grabbed| <= |s.mem.queue|
    ensures s.mem.head < 65536 && s.mem.tail < 65536
    ensures forall k :: |s.grabbed| <= k < |s.accepted| ==> s.mem.queue[k % |s.mem.queue|] == s.accepted[k]
  {
    ReachableInv(s);
  }
}
