// The worker pool of internal/concurrency/patterns.go. Submit takes a slot and then
// makes a blocking channel send, all under one mutex; goroutines are interleaved at
// their channel operations.

module WorkerPools {

  datatype Worker = Idle | Running(job: nat) | Ran(job: nat) | Exited

  /** The mutex is held across a blocking send exactly while a Submit is `Sending`. */
  datatype Sender = NoSender | Sending(job: nat)

  datatype Pool = Pool(
    queueSize: nat,
    workers: seq<Worker>,
    queue: seq<nat>,        // the jobs channel; jobs are numbered in the order they are accepted
    slots: nat,             // tokens in the slots channel
    closed: bool,
    sender: Sender,
    takers: seq<nat>,       // takers[j] is the worker that received job j
    runs: seq<nat>)         // runs[j] is how often job j has run to its end

  function NewPool(workers: nat, queueSize: nat): Pool {
    Pool(queueSize, seq(workers, i => Idle), [], 0, false, NoSender, [], [])
  }

  function Accepted(p: Pool): nat {
    |p.runs|
  }

  predicate Full(p: Pool) {
    p.slots >= |p.workers| + p.queueSize
  }

  datatype Op =
    | TakeSlot                 // Submit: lock, check closed, take a slot
    | SendToQueue              // the send goes into the buffer
    | SendToWorker(i: nat)     // the send meets a waiting worker
    | Receive(i: nat)
    | EndJob(i: nat)           // job() returns
    | FreeSlot(i: nat)         // the deferred receive on slots
    | Close                    // Shutdown: lock, close the channel once
    | Exit(i: nat)             // the range over the closed, drained channel ends

  predicate Enabled(p: Pool, op: Op) {
    match op
    case TakeSlot => p.sender == NoSender && !p.closed && !Full(p)
    case SendToQueue => p.sender.Sending? && |p.queue| < p.queueSize
    case SendToWorker(i) => p.sender.Sending? && p.queue == [] && i < |p.workers| && p.workers[i] == Idle
    case Receive(i) => i < |p.workers| && p.workers[i] == Idle && p.queue != []
    case EndJob(i) => i < |p.workers| && p.workers[i].Running? && p.workers[i].job < |p.runs|
    case FreeSlot(i) => i < |p.workers| && p.workers[i].Ran? && p.slots > 0
    case Close => p.sender == NoSender
    case Exit(i) => i < |p.workers| && p.workers[i] == Idle && p.closed && p.queue == []
  }

  function Do(p: Pool, op: Op): Pool
    requires Enabled(p, op)
  {
    match op
    case TakeSlot => p.(slots := p.slots + 1, sender := Sending(Accepted(p)), runs := p.runs + [0])
    case SendToQueue => p.(queue := p.queue + [p.sender.job], sender := NoSender)
    case SendToWorker(i) => p.(workers := p.workers[i := Running(p.sender.job)], sender := NoSender,
                               takers := p.takers + [i])
    case Receive(i) => p.(workers := p.workers[i := Running(p.queue[0])], queue := p.queue[1..],
                          takers := p.takers + [i])
    case EndJob(i) =>
      var j := p.workers[i].job;
      p.(workers := p.workers[i := Ran(j)], runs := p.runs[j := p.runs[j] + 1])
    case FreeSlot(i) => p.(workers := p.workers[i := Idle], slots := p.slots - 1)
    case Close => p.(closed := true)
    case Exit(i) => p.(workers := p.workers[i := Exited])
  }

  /** wg.Wait() in Shutdown returns: the channel is closed and every worker is gone. */
  predicate ShutdownReturned(p: Pool) {
    p.closed && forall i :: 0 <= i < |p.workers| ==> p.workers[i] == Exited
  }

  // ---- The pool as an object; every method is one critical section or channel operation ----

  class WorkerPool {
    var queueSize: nat
    var workers: seq<Worker>
    var jobs: seq<nat>
    var slots: nat
    var closed: bool
    var sender: Sender
    var takers: seq<nat>
    var runs: seq<nat>
    ghost var closings: nat   // close(jobs) calls made; a second one would panic

    ghost function View(): Pool
      reads this
    {
      Pool(queueSize, workers, jobs, slots, closed, sender, takers, runs)
    }

    ghost predicate ClosedOnce()
      reads this
    {
      closings == if closed then 1 else 0
    }

    constructor (workerCount: nat, queueSize: nat)
      ensures View() == NewPool(workerCount, queueSize) && ClosedOnce()
    {
      closings := 0;
      this.queueSize := queueSize;
      workers := seq(workerCount, i => Idle);
      jobs, slots, closed, sender, takers, runs := [], 0, false, NoSender, [], [];
    }

    /** Submit up to its send: refused when closed or full, otherwise holding a slot and the mutex. */
    method TakeSlotForJob() returns (refused: bool)
      requires sender == NoSender
      modifies `slots, `sender, `runs
      ensures refused <==> old(closed) || old(slots) >= |old(workers)| + old(queueSize)
      ensures refused ==> View() == old(View())
      ensures !refused ==> old(Enabled(View(), TakeSlot)) && View() == Do(old(View()), TakeSlot)
    {
      if closed {
        return true;
      }
      if slots < |workers| + queueSize {
        slots := slots + 1;
        sender := Sending(|runs|);
        runs := runs + [0];
        refused := false;
      } else {
        refused := true;
      }
    }

    method SendJob()
      requires Enabled(View(), SendToQueue)
      modifies `jobs, `sender
      ensures View() == Do(old(View()), SendToQueue)
    {
      jobs := jobs + [sender.job];
      sender := NoSender;
    }

    /** The send meets a worker waiting on the empty channel. */
    method HandJob(i: nat)
      requires Enabled(View(), SendToWorker(i))
      modifies `workers, `sender, `takers
      ensures View() == Do(old(View()), SendToWorker(i))
    {
      workers := workers[i := Running(sender.job)];
      takers := takers + [i];
      sender := NoSender;
    }

    method ReceiveJob(i: nat)
      requires Enabled(View(), Receive(i))
      modifies `jobs, `workers, `takers
      ensures View() == Do(old(View()), Receive(i))
    {
      workers := workers[i := Running(jobs[0])];
      jobs := jobs[1..];
      takers := takers + [i];
    }

    method RunJob(i: nat)
      requires Enabled(View(), EndJob(i))
      modifies `runs, `workers
      ensures View() == Do(old(View()), EndJob(i))
    {
      var job := workers[i].job;
      runs := runs[job := runs[job] + 1];
      workers := workers[i := Ran(job)];
    }

    method ReleaseSlot(i: nat)
      requires Enabled(View(), FreeSlot(i))
      modifies `slots, `workers
      ensures View() == Do(old(View()), FreeSlot(i))
    {
      slots := slots - 1;
      workers := workers[i := Idle];
    }

    /** The range over the closed, drained channel ends. */
    method ExitWorker(i: nat)
      requires Enabled(View(), Exit(i))
      modifies `workers
      ensures View() == Do(old(View()), Exit(i))
    {
      workers := workers[i := Exited];
    }

    /** However often it is called, the channel is closed exactly once. */
    method CloseJobs()
      requires Enabled(View(), Close) && ClosedOnce()
      modifies `closed, `closings
      ensures View() == Do(old(View()), Close) && ClosedOnce()
      ensures closings == old(closings) + if old(closed) then 0 else 1
    {
      if !closed {
        closed := true;
        closings := closings + 1;
      }
    }
  }

  // ---- What every interleaving keeps ----

  function Holds(w: Worker): nat {
    if w.Running? || w.Ran? then 1 else 0
  }

  /** Workers that still hold a slot. */
  function Busy(ws: seq<Worker>): nat {
    if ws == [] then 0 else Busy(ws[..|ws| - 1]) + Holds(ws[|ws| - 1])
  }

  lemma {:induction false} BusyAfter(ws: seq<Worker>, i: nat, w: Worker)
    requires i < |ws|
    ensures Busy(ws[i := w]) == Busy(ws) + Holds(w) - Holds(ws[i])
  {
    var n := |ws| - 1;
    if i == n {
      assert ws[i := w][..n] == ws[..n];
    } else {
      BusyAfter(ws[..n], i, w);
      assert ws[i := w][..n] == ws[..n][i := w];
    }
  }

  lemma {:induction false} BusyAtMost(ws: seq<Worker>)
    ensures Busy(ws) <= |ws|
  {
    if ws != [] {
      BusyAtMost(ws[..|ws| - 1]);
    }
  }

  lemma {:induction false} BusyNone(n: nat)
    ensures Busy(seq(n, i => Idle)) == 0
  {
    if n > 0 {
      BusyNone(n - 1);
      assert seq(n, i => Idle)[..n - 1] == seq(n - 1, i => Idle);
    }
  }

  lemma {:induction false} SomeoneFree(ws: seq<Worker>) returns (i: nat)
    requires Busy(ws) < |ws|
    ensures i < |ws| && Holds(ws[i]) == 0
    decreases |ws|
  {
    if Holds(ws[|ws| - 1]) == 0 {
      i := |ws| - 1;
    } else {
      i := SomeoneFree(ws[..|ws| - 1]);
    }
  }

  function InSend(s: Sender): nat {
    if s.Sending? then 1 else 0
  }

  ghost predicate SlotsOk(p: Pool) {
    && |p.queue| <= p.queueSize
    && p.slots == InSend(p.sender) + |p.queue| + Busy(p.workers)
    && p.slots <= |p.workers| + p.queueSize
    && (p.sender.Sending? ==> !p.closed)
    && (forall i :: 0 <= i < |p.workers| && p.workers[i] == Exited ==> p.closed && p.queue == [])
  }

  /** Jobs are taken in order: those taken are run or running, the queue holds the next ones, the sender the last. */
  ghost predicate JobsOk(p: Pool) {
    && |p.takers| + |p.queue| + InSend(p.sender) == Accepted(p)
    && (p.sender.Sending? ==> p.sender.job == Accepted(p) - 1)
    && (forall k :: 0 <= k < |p.queue| ==> p.queue[k] == |p.takers| + k)
    && (forall j :: |p.takers| <= j < |p.runs| ==> p.runs[j] == 0)
    && (forall i :: 0 <= i < |p.workers| && p.workers[i].Running? ==>
          p.workers[i].job < |p.takers| && p.takers[p.workers[i].job] == i && p.runs[p.workers[i].job] == 0)
    && (forall j :: 0 <= j < |p.takers| ==>
          p.takers[j] < |p.workers| && (p.runs[j] == 1 || (p.runs[j] == 0 && p.workers[p.takers[j]] == Running(j))))
  }

  ghost predicate PoolOk(p: Pool) {
    SlotsOk(p) && JobsOk(p)
  }

  lemma OpKeepsSlots(p: Pool, op: Op)
    requires PoolOk(p) && Enabled(p, op)
    ensures SlotsOk(Do(p, op))
  {
    hide JobsOk;
    match op
    case SendToWorker(i) => BusyAfter(p.workers, i, Running(p.sender.job));
    case Receive(i) => BusyAfter(p.workers, i, Running(p.queue[0]));
    case EndJob(i) => BusyAfter(p.workers, i, Ran(p.workers[i].job));
    case FreeSlot(i) => BusyAfter(p.workers, i, Idle);
    case Exit(i) => BusyAfter(p.workers, i, Exited);
    case _ =>
  }

  lemma OpKeepsJobs(p: Pool, op: Op)
    requires PoolOk(p) && Enabled(p, op)
    ensures JobsOk(Do(p, op))
  {
    hide SlotsOk;
    match op
    case SendToWorker(i) => TakenKeepsJobs(p, op, i);
    case Receive(i) => TakenKeepsJobs(p, op, i);
    case EndJob(i) => EndKeepsJobs(p, i);
    case _ =>
  }

  lemma TakenKeepsJobs(p: Pool, op: Op, i: nat)
    requires JobsOk(p) && Enabled(p, op) && (op == SendToWorker(i) || op == Receive(i))
    ensures JobsOk(Do(p, op))
  {
    var job := |p.takers|;
    assert op.SendToWorker? ==> p.sender.job == job;
    assert op.Receive? ==> p.queue[0] == job;
  }

  lemma EndKeepsJobs(p: Pool, i: nat)
    requires JobsOk(p) && Enabled(p, EndJob(i))
    ensures JobsOk(Do(p, EndJob(i)))
  {
  }

  lemma OpKeepsOk(p: Pool, op: Op)
    requires PoolOk(p) && Enabled(p, op)
    ensures PoolOk(Do(p, op))
  {
    OpKeepsSlots(p, op);
    OpKeepsJobs(p, op);
  }

  lemma NewPoolOk(workers: nat, queueSize: nat)
    ensures PoolOk(NewPool(workers, queueSize))
  {
    BusyNone(workers);
  }

  ghost predicate IsPoolRun(ps: seq<Pool>, ops: seq<Op>, workers: nat, queueSize: nat) {
    && |ps| == |ops| + 1 && ps[0] == NewPool(workers, queueSize)
    && forall i :: 0 <= i < |ops| ==> Enabled(ps[i], ops[i]) && ps[i + 1] == Do(ps[i], ops[i])
  }

  lemma {:induction false} OkOnPoolRuns(ps: seq<Pool>, ops: seq<Op>, workers: nat, queueSize: nat, i: nat)
    requires IsPoolRun(ps, ops, workers, queueSize) && i < |ps|
    ensures PoolOk(ps[i]) && |ps[i].workers| == workers && ps[i].queueSize == queueSize
  {
    hide PoolOk;
    if i == 0 {
      NewPoolOk(workers, queueSize);
    } else {
      OkOnPoolRuns(ps, ops, workers, queueSize, i - 1);
      OpKeepsOk(ps[i - 1], ops[i - 1]);
    }
  }

  // ---- Main results ----

  /** Jobs accepted and not yet run to their end. */
  ghost function Unfinished(p: Pool): set<nat> {
    set j | 0 <= j < |p.runs| && p.runs[j] == 0
  }

  /** Jobs received by the first `n` workers and not yet run to their end. */
  ghost function TakenBy(p: Pool, n: nat): set<nat>
    requires |p.takers| <= |p.runs|
  {
    set j | 0 <= j < |p.takers| && p.runs[j] == 0 && p.takers[j] < n
  }

  function JobIn(w: Worker): set<nat> {
    if w.Running? then {w.job} else {}
  }

  /** A worker has at most one job of its own, the one it is running. */
  lemma OneJobEach(p: Pool, n: nat)
    requires JobsOk(p) && n < |p.workers|
    ensures TakenBy(p, n + 1) <= TakenBy(p, n) + JobIn(p.workers[n])
  {
    forall j | j in TakenBy(p, n + 1) ensures j in TakenBy(p, n) + JobIn(p.workers[n]) {
      assert p.workers[p.takers[j]] == Running(j);
    }
  }

  lemma SubsetOfSum(a: set<nat>, b: set<nat>, c: set<nat>)
    requires a <= b + c
    ensures |a| <= |b| + |c|
  {
    var bc := b + c;
    assert bc == a + (bc - a);
    assert bc == b + (c - b) && |c - b| <= |c| by { assert c == (c - b) + (c * b); }
  }

  lemma {:induction false} UnfinishedTaken(p: Pool, n: nat)
    requires JobsOk(p) && n <= |p.workers|
    ensures |TakenBy(p, n)| <= Busy(p.workers[..n])
  {
    if n == 0 {
      assert TakenBy(p, 0) == {};
    } else {
      assert |p.takers| <= |p.runs|;
      hide JobsOk, TakenBy;
      UnfinishedTaken(p, n - 1);
      OneJobEach(p, n - 1);
      SubsetOfSum(TakenBy(p, n), TakenBy(p, n - 1), JobIn(p.workers[n - 1]));
      assert p.workers[..n][..n - 1] == p.workers[..n - 1];
    }
  }

  /** Accepted-but-unfinished jobs never exceed workers + queueSize. */
  lemma UnfinishedBounded(ps: seq<Pool>, ops: seq<Op>, workers: nat, queueSize: nat, i: nat)
    requires IsPoolRun(ps, ops, workers, queueSize) && i < |ps|
    ensures |Unfinished(ps[i])| <= ps[i].slots <= workers + queueSize
  {
    OkOnPoolRuns(ps, ops, workers, queueSize, i);
    var p := ps[i];
    UnfinishedTaken(p, |p.workers|);
    assert p.workers[..|p.workers|] == p.workers;
    var taken := TakenBy(p, |p.workers|);
    var waiting := Span(|p.takers|, |p.runs|);
    assert Unfinished(p) == taken + waiting;
  }

  ghost function Span(lo: nat, hi: nat): (s: set<nat>)
    requires lo <= hi
    ensures |s| == hi - lo
    ensures forall j :: j in s <==> lo <= j < hi
  {
    if lo == hi then {} else Span(lo, hi - 1) + {hi - 1}
  }

  /** A Submit that holds a slot never waits for a job to end: its send is possible now, or
      right after an idle worker takes the next job from the full queue. */
  lemma SendNeverStalls(ps: seq<Pool>, ops: seq<Op>, workers: nat, queueSize: nat, i: nat) returns (w: nat)
    requires IsPoolRun(ps, ops, workers, queueSize) && i < |ps| && ps[i].sender.Sending?
    ensures !ps[i].closed
    ensures |ps[i].queue| >= queueSize ==> w < |ps[i].workers| && ps[i].workers[w] == Idle
    ensures || Enabled(ps[i], SendToQueue)
            || Enabled(ps[i], SendToWorker(w))
            || (Enabled(ps[i], Receive(w)) && Enabled(Do(ps[i], Receive(w)), SendToQueue))
  {
    OkOnPoolRuns(ps, ops, workers, queueSize, i);
    if |ps[i].queue| < queueSize {
      w := 0;
    } else {
      w := SomeoneFree(ps[i].workers);
    }
  }

  /** Nothing is sent on a closed channel. */
  lemma NoSendAfterClose(ps: seq<Pool>, ops: seq<Op>, workers: nat, queueSize: nat, i: nat)
    requires IsPoolRun(ps, ops, workers, queueSize) && i < |ops| && (ops[i].SendToQueue? || ops[i].SendToWorker?)
    ensures !ps[i].closed && !ps[i + 1].closed
  {
    OkOnPoolRuns(ps, ops, workers, queueSize, i);
  }

  lemma DrainedRanEverything(p: Pool, job: nat)
    requires PoolOk(p) && ShutdownReturned(p) && job < Accepted(p)
    requires |p.workers| > 0 || p.queueSize == 0
    ensures p.runs[job] == 1
  {
    if |p.workers| > 0 {
      assert p.workers[0] == Exited;
    }
    assert p.queue == [] && |p.takers| == |p.runs|;
    assert p.workers[p.takers[job]] == Exited;
  }

  /** When Shutdown returns, every accepted job has run exactly once - given at least one worker. */
  lemma ShutdownRanEverything(ps: seq<Pool>, ops: seq<Op>, workers: nat, queueSize: nat, i: nat, job: nat)
    requires IsPoolRun(ps, ops, workers, queueSize) && i < |ps| && ShutdownReturned(ps[i]) && job < Accepted(ps[i])
    requires workers > 0 || queueSize == 0
    ensures ps[i].runs[job] == 1
  {
    OkOnPoolRuns(ps, ops, workers, queueSize, i);
    DrainedRanEverything(ps[i], job);
  }

  /** Without a worker but with a queue the promise fails: one job is accepted, Shutdown returns, it never ran. */
  lemma NoWorkersLoseJobs(queueSize: nat) returns (ps: seq<Pool>, ops: seq<Op>)
    requires queueSize > 0
    ensures IsPoolRun(ps, ops, 0, queueSize)
    ensures var p := ps[|ops|]; ShutdownReturned(p) && Accepted(p) == 1 && p.runs[0] == 0
  {
    ops := [TakeSlot, SendToQueue, Close];
    var p0 := NewPool(0, queueSize);
    var p1 := Do(p0, TakeSlot);
    var p2 := Do(p1, SendToQueue);
    ps := [p0, p1, p2, Do(p2, Close)];
  }

  // ---- Shutdown returns ----

  function Steps(w: Worker): nat {
    match w
    case Exited => 0
    case Idle => 1
    case Ran(_) => 2
    case Running(_) => 3
  }

  function TotalSteps(ws: seq<Worker>): nat {
    if ws == [] then 0 else TotalSteps(ws[..|ws| - 1]) + Steps(ws[|ws| - 1])
  }

  /** How many channel operations the pool still has in it. */
  function Work(p: Pool): nat {
    4 * InSend(p.sender) + 3 * |p.queue| + TotalSteps(p.workers)
  }

  lemma {:induction false} StepsAfter(ws: seq<Worker>, i: nat, w: Worker)
    requires i < |ws|
    ensures TotalSteps(ws[i := w]) == TotalSteps(ws) + Steps(w) - Steps(ws[i])
  {
    var n := |ws| - 1;
    if i == n {
      assert ws[i := w][..n] == ws[..n];
    } else {
      StepsAfter(ws[..n], i, w);
      assert ws[i := w][..n] == ws[..n][i := w];
    }
  }

  /** Every operation but accepting a job and closing again uses up work. */
  lemma OpUsesWork(p: Pool, op: Op)
    requires Enabled(p, op) && op != TakeSlot && op != Close
    ensures Work(Do(p, op)) < Work(p)
  {
    match op
    case SendToWorker(i) => StepsAfter(p.workers, i, Running(p.sender.job));
    case Receive(i) => StepsAfter(p.workers, i, Running(p.queue[0]));
    case EndJob(i) => StepsAfter(p.workers, i, Ran(p.workers[i].job));
    case FreeSlot(i) => StepsAfter(p.workers, i, Idle);
    case Exit(i) => StepsAfter(p.workers, i, Exited);
    case SendToQueue =>
  }

  lemma {:induction false} BusyIfHolding(ws: seq<Worker>, i: nat)
    requires i < |ws| && Holds(ws[i]) == 1
    ensures Busy(ws) >= 1
  {
    if i < |ws| - 1 {
      BusyIfHolding(ws[..|ws| - 1], i);
    }
  }

  /** A worker that has not left a closed pool always has an operation of its own to take. */
  lemma WorkerCanStep(p: Pool, i: nat) returns (op: Op)
    requires PoolOk(p) && p.closed && i < |p.workers| && p.workers[i] != Exited
    ensures Enabled(p, op) && op in {Receive(i), EndJob(i), FreeSlot(i), Exit(i)}
  {
    match p.workers[i]
    case Idle => op := if p.queue == [] then Exit(i) else Receive(i);
    case Running(_) => op := EndJob(i);
    case Ran(_) =>
      BusyIfHolding(p.workers, i);
      op := FreeSlot(i);
  }

  /** Once the pool is closed an operation is possible until Shutdown returns, and every operation but a
      repeated Close uses up work: Shutdown returns as soon as the running jobs end. */
  lemma ShutdownProgress(ps: seq<Pool>, ops: seq<Op>, workers: nat, queueSize: nat, i: nat)
    requires IsPoolRun(ps, ops, workers, queueSize) && i < |ps| && ps[i].closed
    ensures ShutdownReturned(ps[i]) <==> forall op :: Enabled(ps[i], op) ==> op == Close
    ensures forall op :: Enabled(ps[i], op) && op != Close ==> Work(Do(ps[i], op)) < Work(ps[i])
  {
    OkOnPoolRuns(ps, ops, workers, queueSize, i);
    var p := ps[i];
    if !ShutdownReturned(p) {
      var w :| 0 <= w < |p.workers| && p.workers[w] != Exited;
      var op := WorkerCanStep(p, w);
      assert Enabled(p, op) && op != Close;
    }
    forall op | Enabled(p, op) && op != Close ensures Work(Do(p, op)) < Work(p) {
      OpUsesWork(p, op);
    }
  }
}
