/** Weighted counts of workers by program counter, and what one worker's move does to them. */
module Weights {
  import opened PoolMachine

  datatype Weight =
    | AsleepW         // asleep and not yet woken
    | AlertW          // woken or about to test: will look at the queue again
    | LiveW           // created and not past its started--
    | BusyW           // has grabbed a task that is not completed
    | BelowW(k: nat)  // the same, with a ticket below k
    | RankW           // how far from exit
    | TaskCallW       // steps left in the add that its task is making

  /** Steps left in a call, when a join loop of t threads is to follow. */
  function CallRank(call: Call, t: nat): nat {
    match call
    case AddLock(_) => 4
    case AddBody(_) => 3
    case AddSignal(_, _) => 2
    case AddUnlock(_, _, _) => 1
    case DestroyBroadcast => t + 4
    case DestroyUnlock => t + 3
    case DestroyJoin(j, _) => if j <= t then t - j + 2 else 0
    case DestroyFree => 1
    case _ => 0
  }

  function Weigh(w: Weight, pc: Pc): nat {
    match w
    case AsleepW => if pc.Asleep? then 1 else 0
    case AlertW => if pc.Woken? || pc.Testing? then 1 else 0
    case LiveW => if pc.NotCreated? || pc.ExitUnlock? || pc.Exited? then 0 else 1
    case BusyW => if pc.Grabbed? || pc.Busy? then 1 else 0
    case BelowW(k) => if (pc.Grabbed? || pc.Busy?) && pc.ticket < k then 1 else 0
    case RankW =>
      (match pc
       case NotCreated => 0
       case Exited => 0
       case ExitUnlock => 1
       case Exiting => 2
       case Testing => 3
       case AtLock => 4
       case Woken => 4
       case Asleep => 4
       case Busy(_, _, _) => 5
       case Grabbed(_, _) => 6)
    case TaskCallW => if pc.Busy? then CallRank(pc.call, 0) else 0
  }

  function Sum(w: Weight, ws: seq<Pc>): nat {
    if ws == [] then 0 else Weigh(w, ws[0]) + Sum(w, ws[1..])
  }

  lemma {:induction false} SumUpdate(w: Weight, ws: seq<Pc>, i: nat, pc: Pc)
    requires i < |ws|
    ensures Sum(w, ws[i := pc]) + Weigh(w, ws[i]) == Sum(w, ws) + Weigh(w, pc)
  {
    if i == 0 {
      assert ws[i := pc][1..] == ws[1..];
    } else {
      assert ws[i := pc][1..] == ws[1..][i - 1 := pc];
      SumUpdate(w, ws[1..], i - 1, pc);
    }
  }

  lemma {:induction false} SumSame(w: Weight, ws: seq<Pc>, vs: seq<Pc>)
    requires |ws| == |vs|
    requires forall i :: 0 <= i < |ws| ==> Weigh(w, ws[i]) == Weigh(w, vs[i])
    ensures Sum(w, ws) == Sum(w, vs)
  {
    if ws != [] { SumSame(w, ws[1..], vs[1..]); }
  }

  lemma {:induction false} SumAtLeast(w: Weight, ws: seq<Pc>, i: nat)
    requires i < |ws|
    ensures Sum(w, ws) >= Weigh(w, ws[i])
  {
    if i > 0 { SumAtLeast(w, ws[1..], i - 1); }
  }

  lemma {:induction false} SumAtMost(w: Weight, ws: seq<Pc>, b: nat)
    requires forall i :: 0 <= i < |ws| ==> Weigh(w, ws[i]) <= b
    ensures Sum(w, ws) <= b * |ws|
  {
    if ws != [] {
      SumAtMost(w, ws[1..], b);
      assert Weigh(w, ws[0]) <= b;
      assert |ws[1..]| == |ws| - 1;
      assert b * |ws| == b + b * (|ws| - 1);
    }
  }

  lemma {:induction false} SumZero(w: Weight, ws: seq<Pc>)
    ensures Sum(w, ws) == 0 <==> forall i :: 0 <= i < |ws| ==> Weigh(w, ws[i]) == 0
  {
    if ws != [] {
      SumZero(w, ws[1..]);
      assert forall i :: 1 <= i < |ws| ==> ws[i] == ws[1..][i - 1];
    }
  }

  /** Waking everybody leaves every weight alone that does not tell sleepers from woken workers. */
  lemma SumWakeAll(w: Weight, ws: seq<Pc>)
    requires !w.AsleepW? && !w.AlertW?
    ensures Sum(w, WakeAll(ws)) == Sum(w, ws)
  {
    SumSame(w, ws, WakeAll(ws));
  }

  // ---------- Clients ----------

  function SumCalls(calls: seq<Call>, t: nat): nat {
    if calls == [] then 0 else CallRank(calls[0], t) + SumCalls(calls[1..], t)
  }

  lemma {:induction false} SumCallsUpdate(calls: seq<Call>, t: nat, c: nat, call: Call)
    requires c < |calls|
    ensures SumCalls(calls[c := call], t) + CallRank(calls[c], t) == SumCalls(calls, t) + CallRank(call, t)
  {
    if c == 0 {
      assert calls[c := call][1..] == calls[1..];
    } else {
      assert calls[c := call][1..] == calls[1..][c - 1 := call];
      SumCallsUpdate(calls[1..], t, c - 1, call);
    }
  }

  // ---------- Completed tickets ----------

  /** How many of the tickets are below k. */
  function Below(tickets: seq<nat>, k: nat): nat {
    if tickets == [] then 0
    else Below(tickets[..|tickets| - 1], k) + if tickets[|tickets| - 1] < k then 1 else 0
  }

  lemma BelowAppend(tickets: seq<nat>, x: nat, k: nat)
    ensures Below(tickets + [x], k) == Below(tickets, k) + if x < k then 1 else 0
  {
    assert (tickets + [x])[..|tickets|] == tickets;
  }
}
