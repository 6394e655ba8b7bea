/**
 The pool's shared fields as a value, the effect of each critical section on them,
 and the arithmetic of the ring buffer.
 */
module PoolTypes {

  const MAX_THREADS := 64
  const MAX_QUEUE := 65536

  // Error codes of threadpool.h
  const INVALID := -1
  const LOCK_FAILURE := -2
  const QUEUE_FULL := -3
  const SHUTDOWN := -4
  const THREAD_FAILURE := -5

  datatype Option<+T> = None | Some(value: T)

  /** A task; routine 0 stands for the NULL pointer. */
  datatype Task = Task(routine: nat, argument: int)

  datatype Shutdown = Open | Immediate | Graceful

  /** The fields of the pool that threads share. The size of the queue is |queue|. */
  datatype Fields = Fields(
    queue: seq<Task>,
    head: nat,
    tail: nat,
    count: nat,
    shutdown: Shutdown,
    threadCount: nat,
    started: int
  )

  function InitFields(queue: seq<Task>): Fields {
    Fields(queue, 0, 0, 0, Open, 0, 0)
  }

  /** The shutdown mode that a flags word selects: its lowest bit asks for a graceful one. */
  function ModeOf(flags: int): Shutdown {
    if flags % 2 == 1 then Graceful else Immediate
  }

  /** What the body of add decides: "full" is tested before "shutting down". */
  function AddVerdict(f: Fields): int {
    if f.count == |f.queue| then QUEUE_FULL
    else if f.shutdown != Open then SHUTDOWN
    else 0
  }

  function Enqueue(f: Fields, t: Task): Fields
    requires f.tail < |f.queue|
  {
    f.(queue := f.queue[f.tail := t], tail := (f.tail + 1) % |f.queue|, count := f.count + 1)
  }

  datatype Turn = Wait | Leave | Take

  /** What a worker that owns the lock decides. */
  function TurnOf(f: Fields): Turn {
    if f.count == 0 && f.shutdown == Open then Wait
    else if f.shutdown == Immediate || (f.shutdown == Graceful && f.count == 0) then Leave
    else Take
  }

  function Grab(f: Fields): Fields
    requires f.head < |f.queue| && f.count > 0
  {
    f.(head := (f.head + 1) % |f.queue|, count := f.count - 1)
  }

  // ---------- The ring against unbounded counters ----------

  /** A ring agrees with the histories of all accepted and all grabbed tasks. */
  ghost predicate RingAgrees(queue: seq<Task>, head: nat, tail: nat, count: nat,
                             accepted: seq<Task>, grabbed: seq<Task>)
  {
    && 0 < |queue|
    && |grabbed| <= |accepted| <= |grabbed| + |queue|
    && grabbed == accepted[..|grabbed|]
    && count == |accepted| - |grabbed|
    && head == |grabbed| % |queue|
    && tail == |accepted| % |queue|
    && (forall k :: |grabbed| <= k < |accepted| ==> queue[k % |queue|] == accepted[k])
  }

  ghost predicate RingOk(f: Fields, accepted: seq<Task>, grabbed: seq<Task>) {
    RingAgrees(f.queue, f.head, f.tail, f.count, accepted, grabbed)
  }

  /** The pending tasks, read from head around the ring. */
  ghost function Pending(f: Fields): (p: seq<Task>)
    requires 0 < |f.queue|
    ensures |p| == f.count
  {
    seq(f.count, i requires 0 <= i => f.queue[(f.head + i) % |f.queue|])
  }

  lemma MultipleBound(d: int, n: nat)
    ensures d >= 1 ==> d * n >= n
    ensures d <= -1 ==> d * n <= -(n as int)
  {}

  lemma ModUnique(x: int, n: nat, q: int, r: int)
    requires 0 < n && x == q * n + r && 0 <= r < n
    ensures x % n == r
  {
    MultipleBound(x / n - q, n);
  }

  lemma ModShift(x: nat, i: nat, n: nat)
    requires 0 < n
    ensures (x % n + i) % n == (x + i) % n
  {
    var a := x % n + i;
    ModUnique(x + i, n, x / n + a / n, a % n);
  }

  /** Two positions less than one lap apart never share a slot. */
  lemma ModDistinct(a: nat, b: nat, n: nat)
    requires 0 < b - a < n
    ensures a % n != b % n
  {
    MultipleBound(b / n - a / n, n);
  }

  /** Every slot from head on holds the task that was accepted in its turn. */
  lemma PendingAt(f: Fields, accepted: seq<Task>, grabbed: seq<Task>, i: nat)
    requires RingOk(f, accepted, grabbed) && i < f.count
    ensures Pending(f)[i] == accepted[|grabbed| + i]
  {
    ModShift(|grabbed|, i, |f.queue|);
  }

  /** Conservation: what was accepted is what was grabbed followed by what is pending. */
  lemma Conservation(f: Fields, accepted: seq<Task>, grabbed: seq<Task>)
    requires RingOk(f, accepted, grabbed)
    ensures accepted == grabbed + Pending(f)
  {
    forall i | 0 <= i < |accepted| ensures accepted[i] == (grabbed + Pending(f))[i] {
      if i >= |grabbed| { PendingAt(f, accepted, grabbed, i - |grabbed|); }
    }
  }

  /** No add overwrites a slot that still holds a pending task. */
  lemma EnqueueKeepsRing(f: Fields, accepted: seq<Task>, grabbed: seq<Task>, t: Task)
    requires RingOk(f, accepted, grabbed) && f.count != |f.queue|
    ensures RingOk(Enqueue(f, t), accepted + [t], grabbed)
    ensures Pending(Enqueue(f, t)) == Pending(f) + [t]
  {
    var n := |f.queue|;
    var e := Enqueue(f, t);
    ModShift(|accepted|, 1, n);
    forall k | |grabbed| <= k < |accepted| + 1
      ensures e.queue[k % n] == (accepted + [t])[k]
    {
      if k < |accepted| { ModDistinct(k, |accepted|, n); }
    }
    Conservation(f, accepted, grabbed);
    Conservation(e, accepted + [t], grabbed);
    assert Pending(e) == (accepted + [t])[|grabbed|..];
    assert Pending(f) == accepted[|grabbed|..];
  }

  /** The slot at head holds the oldest task not yet grabbed. */
  lemma GrabKeepsRing(f: Fields, accepted: seq<Task>, grabbed: seq<Task>)
    requires RingOk(f, accepted, grabbed) && f.count > 0
    ensures RingOk(Grab(f), accepted, grabbed + [f.queue[f.head]])
    ensures Pending(f) == [f.queue[f.head]] + Pending(Grab(f))
  {
    var g := grabbed + [f.queue[f.head]];
    ModShift(|grabbed|, 1, |f.queue|);
    assert f.queue[f.head] == accepted[|grabbed|];
    assert g == accepted[..|g|];
    Conservation(f, accepted, grabbed);
    Conservation(Grab(f), accepted, g);
    assert Pending(f) == accepted[|grabbed|..];
    assert Pending(Grab(f)) == accepted[|g|..];
  }

  /** Tasks grabbed in a row without an add in between are the first of the pending ones. */
  lemma GrabsTakePending(f: Fields, g: Fields, accepted: seq<Task>, grabbed: seq<Task>, ran: seq<Task>)
    requires RingOk(f, accepted, grabbed) && RingOk(g, accepted, grabbed + ran)
    ensures Pending(f) == ran + Pending(g)
  {
    Conservation(f, accepted, grabbed);
    Conservation(g, accepted, grabbed + ran);
    assert Pending(f) == accepted[|grabbed|..];
    assert ran + Pending(g) == accepted[|grabbed|..];
  }
}
