/**
 The work-sharing scheduler as a state machine: one shared queue of job nodes, `n` workers, and the
 `stop` that hands out one shutdown node a round. One step per critical section.
 */
module SchedulerMachine {
  import opened Wrappers
  import ActorMachine

  type Verdict = ActorMachine.Verdict

  datatype Item = Job(id: nat) | Shutdown

  datatype Worker =
    | Waiting                    // in dequeue, or about to be
    | Holding(item: Item)        // resuming what it dequeued
    | Leaving                    // its node answered shutdown
    | Ended                      // its thread can be joined

  /** `stop`: before it, between rounds, waiting for a round, joining the threads, done. */
  datatype Stop = Running | Round(k: nat) | Round_Wait(k: nat) | Draining | Stopped

  datatype Pool = Pool(
    workers: seq<Worker>,
    queue: seq<Item>,
    completed: nat,              // completed_count of the shutdown helper
    stop: Stop,
    put: seq<Item>,              // auxiliary: every node enqueued
    taken: seq<Item>,            // auxiliary: every node a worker dequeued
    drained: seq<Item>)          // auxiliary: every node stop drained

  datatype Step =
    | Enqueue(id: nat)
    | Dequeue(w: nat)
    | Finish(w: nat, verdict: Verdict)   // of a job; `Resume` puts the node back
    | Signal(w: nat)                     // the shutdown node counts itself
    | Leave(w: nat)
    | BeginStop
    | NextRound
    | Wake
    | Join
    | Drain
    | IdleWorker(w: nat)                 // waits in vain for a node,
    | IdleStop                           // ... for a round to complete,
    | IdleJoin(w: nat)                   // ... for a thread to end

  function Start(n: nat): Pool
  {
    Pool(seq(n, _ => Waiting), [], 0, Running, [], [], [])
  }

  predicate CanStep(s: Pool, x: Step)
  {
    match x
    case Enqueue(_) => true
    case Dequeue(w) => w < |s.workers| && s.workers[w].Waiting? && s.queue != []
    case Finish(w, _) => w < |s.workers| && s.workers[w].Holding? && s.workers[w].item.Job?
    case Signal(w) => w < |s.workers| && s.workers[w] == Holding(Shutdown)
    case Leave(w) => w < |s.workers| && s.workers[w].Leaving?
    case BeginStop => s.stop.Running?
    case NextRound => s.stop.Round? && s.stop.k < |s.workers|
    case Wake => s.stop.Round_Wait? && s.completed > 0
    case Join => s.stop.Round? && s.stop.k == |s.workers| && forall i :: 0 <= i < |s.workers| ==> s.workers[i].Ended?
    case Drain => s.stop.Draining?
    case IdleWorker(w) => w < |s.workers| && s.workers[w].Waiting? && s.queue == []
    case IdleStop => s.stop.Round_Wait? && s.completed == 0
    case IdleJoin(w) => s.stop == Round(|s.workers|) && w < |s.workers| && !s.workers[w].Ended?
  }

  function Moved(s: Pool, w: nat, p: Worker): Pool
    requires w < |s.workers|
  {
    s.(workers := s.workers[w := p])
  }

  function Behind(s: Pool, i: Item): Pool
  {
    s.(queue := s.queue + [i], put := s.put + [i])
  }

  function Do(s: Pool, x: Step): Pool
    requires CanStep(s, x)
  {
    match x
    case Enqueue(id) => Behind(s, Job(id))
    case Dequeue(w) =>
      Moved(s, w, Holding(s.queue[0])).(queue := s.queue[1..], taken := s.taken + [s.queue[0]])
    case Finish(w, v) =>
      var t := Moved(s, w, Waiting);
      if v.Resume? then Behind(t, s.workers[w].item) else t
    case Signal(w) => Moved(s, w, Leaving).(completed := s.completed + 1)
    case Leave(w) => Moved(s, w, Ended)
    case BeginStop => s.(stop := Round(0))
    case NextRound => Behind(s, Shutdown).(stop := Round_Wait(s.stop.k))
    case Wake => s.(completed := s.completed - 1, stop := Round(s.stop.k + 1))
    case Join => s.(stop := Draining)
    case Drain => s.(queue := [], drained := s.drained + s.queue, stop := Stopped)
    case IdleWorker(_) => s
    case IdleStop => s
    case IdleJoin(_) => s
  }

  predicate CanRun(s: Pool, steps: seq<Step>)
    decreases |steps|
  {
    steps == [] || (CanStep(s, steps[0]) && CanRun(Do(s, steps[0]), steps[1..]))
  }

  function Result(s: Pool, steps: seq<Step>): Pool
    requires CanRun(s, steps)
    decreases |steps|
  {
    if steps == [] then s else Result(Do(s, steps[0]), steps[1..])
  }

  // ---------- counting ----------

  predicate Took(p: Worker)
  {
    p.Leaving? || p.Ended?
  }

  function HowMany(ws: seq<Worker>, gone: bool): nat
  {
    if ws == [] then 0
    else (if (if gone then Took(ws[0]) else ws[0] == Holding(Shutdown)) then 1 else 0) + HowMany(ws[1..], gone)
  }

  function Shutdowns(q: seq<Item>): nat
  {
    if q == [] then 0 else (if q[0].Shutdown? then 1 else 0) + Shutdowns(q[1..])
  }

  lemma {:induction false} ShutdownsBehind(q: seq<Item>, i: Item)
    ensures Shutdowns(q + [i]) == Shutdowns(q) + One(i.Shutdown?)
  {
    if q == [] {
      assert [] + [i] == [i];
    } else {
      assert (q + [i])[1..] == q[1..] + [i];
      ShutdownsBehind(q[1..], i);
    }
  }

  lemma {:induction false} CountMoved(ws: seq<Worker>, w: nat, p: Worker, gone: bool)
    requires w < |ws|
    ensures HowMany(ws[w := p], gone) + One(if gone then Took(ws[w]) else ws[w] == Holding(Shutdown))
         == HowMany(ws, gone) + One(if gone then Took(p) else p == Holding(Shutdown))
  {
    if w == 0 {
      assert ws[w := p][1..] == ws[1..];
    } else {
      assert ws[w := p][1..] == ws[1..][w - 1 := p];
      CountMoved(ws[1..], w - 1, p, gone);
    }
  }

  /** Everyone has taken a shutdown node exactly when the count says so. */
  lemma {:induction false} CountAll(ws: seq<Worker>)
    ensures HowMany(ws, true) <= |ws|
    ensures HowMany(ws, true) == |ws| <==> forall i :: 0 <= i < |ws| ==> Took(ws[i])
  {
    if ws != [] {
      CountAll(ws[1..]);
      assert forall i :: 1 <= i < |ws| ==> ws[i] == ws[1..][i - 1];
    }
  }

  // ---------- the invariant ----------

  function Rounds(s: Pool): nat
  {
    match s.stop
    case Running => 0
    case Round(k) => k
    case Round_Wait(k) => k
    case Draining => |s.workers|
    case Stopped => |s.workers|
  }

  /** The one shutdown node of the present round is queued, in a worker's hand, or counted. */
  predicate Balanced(s: Pool)
  {
    && Shutdowns(s.queue) + HowMany(s.workers, false) + s.completed == One(s.stop.Round_Wait?)
    && HowMany(s.workers, true) == Rounds(s) + s.completed
    && Rounds(s) + One(s.stop.Round_Wait?) <= |s.workers|
  }

  predicate PoolInv(s: Pool)
  {
    && Balanced(s)
    && (s.stop.Draining? || s.stop.Stopped? ==> forall i :: 0 <= i < |s.workers| ==> s.workers[i].Ended?)
    && (!s.stop.Stopped? ==> s.drained == [])
    && s.put == s.taken + s.drained + s.queue
  }

  lemma WorkerStep(s: Pool, w: nat, p: Worker)
    requires w < |s.workers|
    ensures HowMany(s.workers[w := p], true) + One(Took(s.workers[w])) == HowMany(s.workers, true) + One(Took(p))
    ensures HowMany(s.workers[w := p], false) + One(s.workers[w] == Holding(Shutdown))
         == HowMany(s.workers, false) + One(p == Holding(Shutdown))
  {
    CountMoved(s.workers, w, p, true);
    CountMoved(s.workers, w, p, false);
  }

  lemma DequeueBalanced(s: Pool, w: nat)
    requires Balanced(s) && CanStep(s, Dequeue(w))
    ensures Balanced(Do(s, Dequeue(w)))
  {
    WorkerStep(s, w, Holding(s.queue[0]));
  }

  lemma FinishBalanced(s: Pool, w: nat, v: Verdict)
    requires Balanced(s) && CanStep(s, Finish(w, v))
    ensures Balanced(Do(s, Finish(w, v)))
  {
    WorkerStep(s, w, Waiting);
    ShutdownsBehind(s.queue, s.workers[w].item);
  }

  lemma StepBalanced(s: Pool, x: Step)
    requires PoolInv(s) && CanStep(s, x)
    ensures Balanced(Do(s, x))
  {
    match x
    case Enqueue(id) => ShutdownsBehind(s.queue, Job(id));
    case Dequeue(w) => DequeueBalanced(s, w);
    case Finish(w, v) => FinishBalanced(s, w, v);
    case Signal(w) => WorkerStep(s, w, Leaving);
    case Leave(w) => WorkerStep(s, w, Ended);
    case NextRound => ShutdownsBehind(s.queue, Shutdown);
    case _ =>
  }

  lemma PoolStep(s: Pool, x: Step)
    requires PoolInv(s) && CanStep(s, x)
    ensures PoolInv(Do(s, x)) && |Do(s, x).workers| == |s.workers|
    ensures s.put <= Do(s, x).put && s.taken <= Do(s, x).taken
  {
    StepBalanced(s, x);
  }

  lemma {:induction false} PoolRun(s: Pool, steps: seq<Step>)
    requires PoolInv(s) && CanRun(s, steps)
    ensures PoolInv(Result(s, steps)) && |Result(s, steps).workers| == |s.workers|
    ensures s.put <= Result(s, steps).put && s.taken <= Result(s, steps).taken
    decreases |steps|
  {
    if steps != [] {
      PoolStep(s, steps[0]);
      PoolRun(Do(s, steps[0]), steps[1..]);
    }
  }

  lemma {:induction false} NoneYet(ws: seq<Worker>)
    requires forall i :: 0 <= i < |ws| ==> ws[i] == Waiting
    ensures HowMany(ws, true) == 0 && HowMany(ws, false) == 0
  {
    if ws != [] {
      NoneYet(ws[1..]);
    }
  }

  lemma StartInv(n: nat)
    ensures PoolInv(Start(n))
  {
    NoneYet(Start(n).workers);
  }

  // ---------- the theorems ----------

  /** A node at index i is what the (i+1)-th later dequeue takes, whatever is put behind it. */
  lemma Fifo(n: nat, before: seq<Step>, after: seq<Step>, i: nat)
    requires CanRun(Start(n), before) && CanRun(Result(Start(n), before), after)
    requires i < |Result(Start(n), before).queue|
    requires |Result(Start(n), before).taken| + i < |Result(Result(Start(n), before), after).taken|
    ensures var s := Result(Start(n), before); Result(s, after).taken[|s.taken| + i] == s.queue[i]
  {
    StartInv(n);
    PoolRun(Start(n), before);
    var s := Result(Start(n), before);
    PoolRun(s, after);
    var t := Result(s, after);
    if s.stop.Stopped? {
      NoDequeue(s, after);
    }
    assert t.taken[|s.taken| + i] == t.put[|s.taken| + i] == s.put[|s.taken| + i];
  }

  lemma {:induction false} NoDequeue(s: Pool, steps: seq<Step>)
    requires PoolInv(s) && CanRun(s, steps) && Rounds(s) == |s.workers|
    ensures Rounds(Result(s, steps)) == |s.workers| == |Result(s, steps).workers|
    ensures Result(s, steps).taken == s.taken
    decreases |steps|
  {
    if steps != [] {
      var x := steps[0];
      CountAll(s.workers);
      PoolStep(s, x);
      NoDequeue(Do(s, x), steps[1..]);
    }
  }

  /** Between rounds, exactly one worker a round has taken a shutdown node, and none is about to. */
  lemma RoundsTakeWorkers(n: nat, steps: seq<Step>, k: nat)
    requires CanRun(Start(n), steps) && Result(Start(n), steps).stop == Round(k)
    ensures var s := Result(Start(n), steps);
      HowMany(s.workers, true) == k && HowMany(s.workers, false) == 0 && Shutdowns(s.queue) == 0 && k <= n
  {
    StartInv(n);
    PoolRun(Start(n), steps);
  }

  /** After `n` rounds nobody dequeues again. */
  lemma LastRoundEndsDequeues(n: nat, steps: seq<Step>, more: seq<Step>)
    requires CanRun(Start(n), steps) && Result(Start(n), steps).stop == Round(n)
    requires CanRun(Result(Start(n), steps), more)
    ensures Result(Result(Start(n), steps), more).taken == Result(Start(n), steps).taken
    ensures |Result(Result(Start(n), steps), more).workers| == n
    ensures forall w :: 0 <= w < n ==> Took(Result(Result(Start(n), steps), more).workers[w])
  {
    StartInv(n);
    PoolRun(Start(n), steps);
    var s := Result(Start(n), steps);
    PoolRun(s, more);
    NoDequeue(s, more);
    CountAll(Result(s, more).workers);
  }

  /** When `stop` returns, every node ever enqueued was dequeued or drained, in order. */
  lemma DrainedAll(n: nat, steps: seq<Step>)
    requires CanRun(Start(n), steps) && CanStep(Result(Start(n), steps), Drain)
    ensures var t := Do(Result(Start(n), steps), Drain);
      && t.put == t.taken + t.drained && t.queue == []
      && |t.workers| == n && forall w :: 0 <= w < n ==> t.workers[w].Ended?
  {
    StartInv(n);
    PoolRun(Start(n), steps);
    DrainStep(Result(Start(n), steps));
  }

  lemma DrainStep(s: Pool)
    requires PoolInv(s) && s.stop.Draining?
    ensures var t := Do(s, Drain);
      && t.put == t.taken + t.drained && t.queue == []
      && t.workers == s.workers && forall w :: 0 <= w < |s.workers| ==> s.workers[w].Ended?
  {
    assert s.drained == [] && [] + s.queue == s.queue && s.taken + [] == s.taken;
  }

  /** A step of `stop` or of a worker that gets it further. */
  predicate Acts(x: Step)
  {
    !x.Enqueue? && !x.IdleWorker? && !x.IdleStop? && !x.IdleJoin?
  }

  /** Unless it has returned, `stop` is never stuck: it or a worker has a step. */
  lemma StopIsNeverStuck(n: nat, steps: seq<Step>)
    requires CanRun(Start(n), steps)
    ensures var s := Result(Start(n), steps);
      !s.stop.Running? && !s.stop.Stopped? ==> exists x: Step :: Acts(x) && CanStep(s, x)
  {
    StartInv(n);
    PoolRun(Start(n), steps);
    var s := Result(Start(n), steps);
    CountAll(s.workers);
    match s.stop {
      case Running =>
      case Stopped =>
      case Draining => assert CanStep(s, Drain);
      case Round(k) =>
        if k < n {
          assert CanStep(s, NextRound);
        } else if w :| 0 <= w < n && !s.workers[w].Ended? {
          assert CanStep(s, Leave(w));
        } else {
          assert CanStep(s, Join);
        }
      case Round_Wait(k) =>
        if s.completed > 0 {
          assert CanStep(s, Wake);
        } else {
          var w :| 0 <= w < n && !Took(s.workers[w]);
          WaitingHasWork(s, w);
        }
    }
  }

  lemma WaitingHasWork(s: Pool, w: nat)
    requires PoolInv(s) && s.stop.Round_Wait? && s.completed == 0 && w < |s.workers| && !Took(s.workers[w])
    ensures exists x: Step :: Acts(x) && CanStep(s, x)
  {
    if s.workers[w].Holding? {
      if s.workers[w].item.Shutdown? {
        assert CanStep(s, Signal(w));
      } else {
        assert CanStep(s, Finish(w, Verdict.Done));
      }
    } else if s.queue != [] {
      assert CanStep(s, Dequeue(w));
    } else {
      HolderExists(s.workers);
      var v :| 0 <= v < |s.workers| && s.workers[v] == Holding(Shutdown);
      assert CanStep(s, Signal(v));
    }
  }

  lemma {:induction false} HolderExists(ws: seq<Worker>)
    requires HowMany(ws, false) > 0
    ensures exists v :: 0 <= v < |ws| && ws[v] == Holding(Shutdown)
  {
    if ws[0] != Holding(Shutdown) {
      HolderExists(ws[1..]);
      var v :| 0 <= v < |ws[1..]| && ws[1..][v] == Holding(Shutdown);
      assert ws[v + 1] == Holding(Shutdown);
    }
  }

  // ---------- job nodes ----------

  function Hands(ws: seq<Worker>, id: nat): nat
  {
    if ws == [] then 0 else One(ws[0] == Holding(Job(id))) + Hands(ws[1..], id)
  }

  lemma {:induction false} HandsMoved(ws: seq<Worker>, w: nat, p: Worker, id: nat)
    requires w < |ws|
    ensures Hands(ws[w := p], id) + One(ws[w] == Holding(Job(id))) == Hands(ws, id) + One(p == Holding(Job(id)))
  {
    if w == 0 {
      assert ws[w := p][1..] == ws[1..];
    } else {
      assert ws[w := p][1..] == ws[1..][w - 1 := p];
      HandsMoved(ws[1..], w - 1, p, id);
    }
  }

  /** How many nodes of the job there are: queued, in a worker's hand, or drained. */
  function Nodes(s: Pool, id: nat): nat
  {
    multiset(s.queue)[Job(id)] + Hands(s.workers, id) + multiset(s.drained)[Job(id)]
  }

  /** A worker drops the node of a job that did not ask to be resumed. */
  predicate Drops(s: Pool, x: Step, id: nat)
    requires CanStep(s, x)
  {
    x.Finish? && !x.verdict.Resume? && s.workers[x.w] == Holding(Job(id))
  }

  function TimesDropped(s: Pool, steps: seq<Step>, id: nat): nat
    requires CanRun(s, steps)
    decreases |steps|
  {
    if steps == [] then 0
    else One(Drops(s, steps[0], id)) + TimesDropped(Do(s, steps[0]), steps[1..], id)
  }

  lemma NodeStep(s: Pool, x: Step, id: nat)
    requires CanStep(s, x)
    ensures Nodes(Do(s, x), id) + One(Drops(s, x, id)) == Nodes(s, id) + One(x == Enqueue(id))
  {
    match x
    case Dequeue(w) =>
      HandsMoved(s.workers, w, Holding(s.queue[0]), id);
      assert s.queue == [s.queue[0]] + s.queue[1..];
    case Finish(w, v) => HandsMoved(s.workers, w, Waiting, id);
    case Signal(w) => HandsMoved(s.workers, w, Leaving, id);
    case Leave(w) => HandsMoved(s.workers, w, Ended, id);
    case _ =>
  }

  lemma {:induction false} NodeRun(s: Pool, steps: seq<Step>, id: nat)
    requires CanRun(s, steps)
    ensures Nodes(Result(s, steps), id) + TimesDropped(s, steps, id) == Nodes(s, id) + multiset(steps)[Enqueue(id)]
    decreases |steps|
  {
    if steps != [] {
      NodeStep(s, steps[0], id);
      NodeRun(Do(s, steps[0]), steps[1..], id);
      assert steps == [steps[0]] + steps[1..];
    }
  }

  lemma {:induction false} NoHands(ws: seq<Worker>, id: nat)
    requires forall i :: 0 <= i < |ws| ==> ws[i] == Waiting
    ensures Hands(ws, id) == 0
  {
    if ws != [] {
      NoHands(ws[1..], id);
    }
  }

  /**
   Every node enqueued for a job is still queued, in a worker's hand or drained, but for those whose
   verdict did not ask for more: `resume` keeps the node, the other verdicts drop it.
   */
  lemma NodesConserved(n: nat, steps: seq<Step>, id: nat)
    requires CanRun(Start(n), steps)
    ensures multiset(steps)[Enqueue(id)] == Nodes(Result(Start(n), steps), id) + TimesDropped(Start(n), steps, id)
  {
    NoHands(Start(n).workers, id);
    NodeRun(Start(n), steps, id);
  }
}
