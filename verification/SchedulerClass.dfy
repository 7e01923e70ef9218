/** The scheduler as an object: the run queue, a worker's loop, and `stop`. */
module Schedulers {
  import opened SchedulerMachine
  import opened Wrappers

  class Scheduler {
    const num_workers_: nat
    var queue: seq<Item>
    var completed_count: nat
    var ended: seq<bool>               // which worker threads have returned
    ghost var view: Pool
    ghost var trace: seq<Step>

    /** A run of the machine ends in `view`, and the fields agree with it. */
    ghost predicate Valid()
      reads this
    {
      && CanRun(Start(num_workers_), trace) && Result(Start(num_workers_), trace) == view
      && view.queue == queue && view.completed == completed_count
      && |ended| == |view.workers| == num_workers_
      && forall i :: 0 <= i < |ended| ==> (ended[i] <==> view.workers[i].Ended?)
    }

    constructor (n: nat)
      ensures Valid() && num_workers_ == n && view == Start(n)
    {
      num_workers_ := n;
      queue, completed_count, ended := [], 0, seq(n, _ => false);
      view, trace := Start(n), [];
    }

    /** How often a step has been taken so far. */
    ghost function Times(x: Step): nat
      reads this
    {
      multiset(trace)[x]
    }

    /** How many jobs worker `w` has discharged as their verdicts asked. */
    ghost function Discharged(w: nat): nat
      reads this
    {
      Times(Finish(w, Verdict.Resume)) + Times(Finish(w, Verdict.Awaiting)) + Times(Finish(w, Verdict.Done))
    }

    lemma TimesGrow(before: seq<Step>, x: Step)
      requires before <= trace
      ensures multiset(before)[x] <= Times(x)
    {
      assert trace == before + trace[|before|..];
    }

    /** Worker `w` has taken no step of its own. */
    twostate predicate Unmoved(w: nat)
      reads this
    {
      && Times(IdleWorker(w)) == old(Times(IdleWorker(w))) && Times(Dequeue(w)) == old(Times(Dequeue(w)))
      && Discharged(w) == old(Discharged(w))
    }

    /** Other threads act; worker `w` stays where it is. */
    method OthersAct(ghost w: nat)
      requires Valid() && w < num_workers_
      modifies this
      ensures Valid() && view.workers[w] == old(view.workers[w]) && old(trace) <= trace && Unmoved(w)
    {
    }

    /** Workers and clients act; `stop` stays where it is, and who has returned stays so. */
    method WorkersAct()
      requires Valid()
      modifies this
      ensures Valid() && view.stop == old(view.stop) && old(trace) <= trace
      ensures forall i :: 0 <= i < |ended| ==> old(ended[i]) ==> ended[i]
      ensures Times(IdleStop) == old(Times(IdleStop)) && forall w :: Times(IdleJoin(w)) == old(Times(IdleJoin(w)))
    {
    }

    ghost method Account(x: Step)
      requires CanRun(Start(num_workers_), trace) && Result(Start(num_workers_), trace) == view && CanStep(view, x)
      modifies this`view, this`trace
      ensures view == Do(old(view), x) && trace == old(trace) + [x]
      ensures forall y :: Times(y) == old(Times(y)) + One(y == x)
      ensures CanRun(Start(num_workers_), trace) && Result(Start(num_workers_), trace) == view
    {
      Extended(Start(num_workers_), trace, x);
      view := Do(view, x);
      trace := trace + [x];
    }

    /** `central_enqueue` of a client's job. */
    method CentralEnqueue(id: nat)
      requires Valid()
      modifies this`queue, this`view, this`trace
      ensures Valid() && trace == old(trace) + [Enqueue(id)] && queue == old(queue) + [Job(id)]
    {
      queue := queue + [Job(id)];
      Account(Enqueue(id));
    }

    // ---------- a worker ----------

    /** Wait for a node, at most `patience` times; the source waits for as long as it takes. */
    method DequeueNode(w: nat, patience: nat) returns (r: Option<Item>)
      requires Valid() && w < num_workers_ && view.workers[w].Waiting?
      modifies this
      ensures Valid() && old(trace) <= trace && Discharged(w) == old(Discharged(w))
      ensures view.workers[w] == if r.None? then Waiting else Holding(r.value)
      ensures Times(Dequeue(w)) == old(Times(Dequeue(w))) + One(r.Some?)
      ensures r.None? ==> Times(IdleWorker(w)) == old(Times(IdleWorker(w))) + patience
    {
      for attempts := 0 to patience
        invariant Valid() && view.workers[w].Waiting? && old(trace) <= trace
        invariant Discharged(w) == old(Discharged(w)) && Times(Dequeue(w)) == old(Times(Dequeue(w)))
        invariant Times(IdleWorker(w)) == old(Times(IdleWorker(w))) + attempts
      {
        r := TryDequeue(w);
        if r.Some? { return; }
      }
      return None;
    }

    method TryDequeue(w: nat) returns (r: Option<Item>)
      requires Valid() && w < num_workers_ && view.workers[w].Waiting?
      modifies this
      ensures Valid() && old(trace) <= trace && Discharged(w) == old(Discharged(w))
      ensures view.workers[w] == if r.None? then Waiting else Holding(r.value)
      ensures Times(Dequeue(w)) == old(Times(Dequeue(w))) + One(r.Some?)
      ensures Times(IdleWorker(w)) == old(Times(IdleWorker(w))) + One(r.None?)
    {
      OthersAct(w);
      if queue != [] {
        r := Some(queue[0]);
        queue := queue[1..];
        Account(Dequeue(w));
      } else {
        r := None;
        Account(IdleWorker(w));
      }
    }

    /**
     The loop of a worker's thread. Each node it takes is discharged by its verdict, but for the
     shutdown node that ends it; it gives up early only after its turns or after waiting in vain.
     */
    method Run(w: nat, turns: nat, patience: nat) returns (shutdown: bool)
      requires Valid() && w < num_workers_ && view.workers[w].Waiting?
      modifies this
      ensures Valid() && old(trace) <= trace
      ensures if shutdown then view.workers[w].Ended? else view.workers[w].Waiting?
      ensures Times(Dequeue(w)) - old(Times(Dequeue(w))) == Discharged(w) - old(Discharged(w)) + One(shutdown)
      ensures !shutdown ==>
        || Times(Dequeue(w)) == old(Times(Dequeue(w))) + turns
        || Times(IdleWorker(w)) >= old(Times(IdleWorker(w))) + patience
    {
      for turn := 0 to turns
        invariant Valid() && view.workers[w].Waiting? && old(trace) <= trace
        invariant Times(Dequeue(w)) == old(Times(Dequeue(w))) + turn
        invariant Discharged(w) == old(Discharged(w)) + turn
      {
        TimesGrow(old(trace), IdleWorker(w));
        var node := DequeueNode(w, patience);
        if node.None? { return false; }
        if node.value.Shutdown? {
          ResumeShutdown(w);
          return true;
        }
        var verdict := ResumeJob(w, node.value);
      }
      return false;
    }

    /** Resume a job and do what its verdict asks: put the node back at the end, or drop it. */
    method ResumeJob(w: nat, node: Item) returns (verdict: Verdict)
      requires Valid() && w < num_workers_ && node.Job? && view.workers[w] == Holding(node)
      modifies this
      ensures Valid() && view.workers[w].Waiting? && old(trace) < trace && trace[|trace| - 1] == Finish(w, verdict)
      ensures verdict.Resume? ==> queue != [] && queue[|queue| - 1] == node
      ensures Discharged(w) == old(Discharged(w)) + 1 && Times(Dequeue(w)) == old(Times(Dequeue(w)))
    {
      OthersAct(w);
      verdict := *;
      FinishJob(w, node, verdict);
    }

    method FinishJob(w: nat, node: Item, verdict: Verdict)
      requires Valid() && w < num_workers_ && node.Job? && view.workers[w] == Holding(node)
      modifies this`queue, this`view, this`trace
      ensures Valid() && view.workers[w].Waiting? && trace == old(trace) + [Finish(w, verdict)]
      ensures queue == old(queue) + (if verdict.Resume? then [node] else [])
    {
      if verdict.Resume? {
        queue := queue + [node];       // resume_job_later
      }
      Account(Finish(w, verdict));
    }

    method ResumeShutdown(w: nat)
      requires Valid() && w < num_workers_ && view.workers[w] == Holding(Shutdown)
      modifies this
      ensures Valid() && view.workers[w].Ended? && old(trace) <= trace && Unmoved(w)
    {
      SignalStop(w);
      OthersAct(w);
      ended := ended[w := true];
      Account(Leave(w));
    }

    method SignalStop(w: nat)
      requires Valid() && w < num_workers_ && view.workers[w] == Holding(Shutdown)
      modifies this
      ensures Valid() && view.workers[w].Leaving? && old(trace) <= trace && Unmoved(w)
    {
      OthersAct(w);
      completed_count := completed_count + 1;
      Account(Signal(w));
    }

    // ---------- stop ----------

    /** The answer tells whether the waits, bounded by `patience`, sufficed; the source waits on. */
    method StopAll(patience: nat) returns (finished: bool, drained: seq<Item>)
      requires Valid() && view.stop.Running?
      modifies this
      ensures Valid() && old(trace) <= trace
      ensures finished ==> view.stop.Stopped? && queue == [] && drained == view.drained
      ensures finished ==> view.put == view.taken + drained && forall i :: 0 <= i < num_workers_ ==> ended[i]
      ensures !finished ==>
        || Times(IdleStop) >= old(Times(IdleStop)) + patience
        || exists w :: 0 <= w < num_workers_ && Times(IdleJoin(w)) >= old(Times(IdleJoin(w))) + patience
    {
      drained := [];
      ghost var begun := trace;
      Account(BeginStop);
      TimesGrow(begun, IdleStop);
      finished := ShutWorkers(patience);
      if !finished { return; }
      forall x {
        TimesGrow(begun, x);
      }
      ghost var late;
      finished, drained, late := JoinAndDrain(patience);
    }

    method JoinAndDrain(patience: nat) returns (finished: bool, drained: seq<Item>, ghost late: nat)
      requires Valid() && view.stop == Round(num_workers_)
      modifies this
      ensures Valid() && old(trace) <= trace
      ensures finished ==> view.stop.Stopped? && queue == [] && drained == view.drained
      ensures finished ==> view.put == view.taken + drained && forall i :: 0 <= i < num_workers_ ==> ended[i]
      ensures !finished ==> late < num_workers_ && Times(IdleJoin(late)) >= old(Times(IdleJoin(late))) + patience
    {
      drained := [];
      finished, late := JoinAll(patience);
      if !finished { return; }
      DrainsAll(num_workers_, trace, Join);
      Account(Join);
      drained := ForeachCentralResumable();
    }

    /** One round a worker: enqueue a shutdown node, wait until one has been counted. */
    method ShutWorkers(patience: nat) returns (finished: bool)
      requires Valid() && view.stop == Round(0)
      modifies this
      ensures Valid() && old(trace) <= trace
      ensures finished ==> view.stop == Round(num_workers_)
      ensures !finished ==> Times(IdleStop) >= old(Times(IdleStop)) + patience
    {
      var alive_workers: set<nat> := {};
      for i := 0 to num_workers_
        invariant |alive_workers| == i && forall w <- alive_workers :: w < i
      {
        alive_workers := alive_workers + {i};
      }
      while alive_workers != {}
        invariant Valid() && old(trace) <= trace
        invariant |alive_workers| <= num_workers_ && view.stop == Round(num_workers_ - |alive_workers|)
        decreases |alive_workers|
      {
        assert exists w :: w in alive_workers;
        var w :| w in alive_workers;
        TimesGrow(old(trace), IdleStop);
        var ok := OneRound(patience);
        if !ok { return false; }
        alive_workers := alive_workers - {w};
      }
      return true;
    }

    method OneRound(patience: nat) returns (ok: bool)
      requires Valid() && view.stop.Round? && view.stop.k < num_workers_
      modifies this
      ensures Valid() && old(trace) <= trace
      ensures ok ==> view.stop == Round(old(view.stop.k) + 1)
      ensures !ok ==> Times(IdleStop) == old(Times(IdleStop)) + patience
    {
      queue := queue + [Shutdown];
      Account(NextRound);
      ok := WaitForCompletion(patience);
    }

    method WaitForCompletion(patience: nat) returns (ok: bool)
      requires Valid() && view.stop.Round_Wait?
      modifies this
      ensures Valid() && old(trace) <= trace
      ensures ok ==> view.stop == Round(old(view.stop.k) + 1)
      ensures !ok ==> Times(IdleStop) == old(Times(IdleStop)) + patience
    {
      for attempts := 0 to patience
        invariant Valid() && view.stop == old(view.stop) && old(trace) <= trace
        invariant Times(IdleStop) == old(Times(IdleStop)) + attempts
      {
        WorkersAct();
        if completed_count > 0 {
          completed_count := completed_count - 1;
          Account(Wake);
          return true;
        }
        Account(IdleStop);
      }
      return false;
    }

    method JoinAll(patience: nat) returns (finished: bool, ghost late: nat)
      requires Valid() && view.stop == Round(num_workers_)
      modifies this
      ensures Valid() && old(trace) <= trace && view.stop == old(view.stop)
      ensures finished ==> forall i :: 0 <= i < num_workers_ ==> ended[i]
      ensures !finished ==> late < num_workers_ && Times(IdleJoin(late)) >= old(Times(IdleJoin(late))) + patience
    {
      for w := 0 to num_workers_
        invariant Valid() && old(trace) <= trace && view.stop == old(view.stop)
        invariant forall i :: 0 <= i < w ==> ended[i]
      {
        TimesGrow(old(trace), IdleJoin(w));
        var ok := JoinThread(w, patience);
        if !ok { return false, w; }
      }
      return true, 0;
    }

    method JoinThread(w: nat, patience: nat) returns (ok: bool)
      requires Valid() && view.stop == Round(num_workers_) && w < num_workers_
      modifies this
      ensures Valid() && old(trace) <= trace && view.stop == old(view.stop)
      ensures forall i :: 0 <= i < num_workers_ ==> old(ended[i]) ==> ended[i]
      ensures if ok then ended[w] else Times(IdleJoin(w)) == old(Times(IdleJoin(w))) + patience
    {
      for attempts := 0 to patience
        invariant Valid() && old(trace) <= trace && view.stop == old(view.stop)
        invariant forall i :: 0 <= i < num_workers_ ==> old(ended[i]) ==> ended[i]
        invariant Times(IdleJoin(w)) == old(Times(IdleJoin(w))) + attempts
      {
        if ended[w] { return true; }
        Account(IdleJoin(w));
        WorkersAct();
      }
      return false;
    }

    /** Pop what is left, front first, under the lock. */
    method ForeachCentralResumable() returns (handed: seq<Item>)
      requires Valid() && view.stop.Draining?
      modifies this
      ensures Valid() && view.stop.Stopped? && queue == [] && handed == old(queue) && trace == old(trace) + [Drain]
      ensures view.drained == old(view.drained) + handed && view.put == old(view.put) && view.taken == old(view.taken)
      ensures view.workers == old(view.workers) && ended == old(ended)
    {
      handed := [];
      while queue != []
        invariant handed + queue == old(queue) && view == old(view) && trace == old(trace)
        invariant ended == old(ended) && completed_count == old(completed_count)
        decreases |queue|
      {
        handed := handed + [queue[0]];
        queue := queue[1..];
      }
      Account(Drain);
    }
  }

  lemma DrainsAll(n: nat, steps: seq<Step>, x: Step)
    requires CanRun(Start(n), steps) && x == Join && CanStep(Result(Start(n), steps), x)
    ensures var s := Result(Start(n), steps); s.drained == [] && s.put == s.taken + s.queue
  {
    StartInv(n);
    PoolRun(Start(n), steps);
    var s := Result(Start(n), steps);
    assert [] + s.queue == s.queue && s.taken + [] == s.taken;
  }

  lemma {:induction false} Extended(s: Pool, steps: seq<Step>, x: Step)
    requires CanRun(s, steps) && CanStep(Result(s, steps), x)
    ensures CanRun(s, steps + [x]) && Result(s, steps + [x]) == Do(Result(s, steps), x)
    decreases |steps|
  {
    if steps == [] {
      assert ([] + [x])[1..] == [];
    } else {
      assert (steps + [x])[1..] == steps[1..] + [x];
      Extended(Do(s, steps[0]), steps[1..], x);
    }
  }
}
