/** The scheduling protocol over whole runs: wakeups, job nodes, turns and destruction. */
module ActorTheorems {
  import opened Wrappers
  import opened StateWord
  import opened ActorMachine
  import opened ActorInvariants

  lemma {:induction false} RunKeeps(s: State, actions: seq<Action>)
    requires Inv(s) && IsRun(s, actions)
    ensures Inv(After(s, actions))
    ensures OneJob(s) && NoPoke(actions) ==> OneJob(After(s, actions))
    decreases |actions|
  {
    if actions != [] {
      StepInv(s, actions[0]);
      RunKeeps(Apply(s, actions[0]), actions[1..]);
    }
  }

  /** The state after a run from a freshly constructed actor. */
  ghost function Reached(actions: seq<Action>): State
    requires IsRun(Init(), actions)
  {
    After(Init(), actions)
  }

  lemma ReachedInv(actions: seq<Action>)
    requires IsRun(Init(), actions)
    ensures Inv(Reached(actions))
    ensures NoPoke(actions) ==> OneJob(Reached(actions))
  {
    InitInv();
    RunKeeps(Init(), actions);
  }

  /** What a run does after a beginning of it. */
  lemma {:induction false} Suffix(s: State, before: seq<Action>, all: seq<Action>)
    requires IsRun(s, before) && IsRun(s, all) && before <= all
    ensures IsRun(After(s, before), all[|before|..])
    ensures After(After(s, before), all[|before|..]) == After(s, all)
    decreases |before|
  {
    if before == [] {
      assert all[0..] == all;
    } else {
      assert before[1..] <= all[1..] && all[1..][|before[1..]|..] == all[|before|..];
      Suffix(Apply(s, before[0]), before[1..], all[1..]);
    }
  }

  // ---------- wakeups and job nodes ----------

  /** A registered sender whose push unblocked the reader and who has not yet claimed `scheduled`. */
  ghost predicate SomeSenderOwes(s: State)
  {
    exists t :: t in s.pc && Has(Pending, s.pc[t])
  }

  /**
   No lost wakeup, with any number of senders and drivers, pokes included: an inbox that is not
   blocked has someone committed to it, and a set flag has an outstanding job node behind it.
   */
  lemma NoLostWakeup(actions: seq<Action>)
    requires IsRun(Init(), actions)
    ensures var s := Reached(actions);
            !s.word.destroying ==>
              && (!s.inbox.Blocked? ==> s.word.scheduled || s.word.running || SomeSenderOwes(s))
              && (s.word.scheduled || s.word.running ==> Jobs(s) > 0)
  {
    ReachedInv(actions);
    CountPositive(Reached(actions).pc, Pending);
  }

  /** A message in the mailbox or a suspended behavior always has a job node or a sender that owes one. */
  lemma WaitingWorkIsOwed(actions: seq<Action>)
    requires IsRun(Init(), actions)
    ensures var s := Reached(actions);
            !s.word.destroying && (s.live || s.cached > 0 || (s.inbox.Open? && s.inbox.count > 0)) ==>
              Jobs(s) > 0 || SomeSenderOwes(s)
  {
    ReachedInv(actions);
    CountPositive(Reached(actions).pc, Pending);
  }

  /** When nothing is in flight nothing has been left behind: the actor is parked and empty. */
  lemma QuiescentIsParked(actions: seq<Action>)
    requires IsRun(Init(), actions)
    requires var s := Reached(actions); !s.word.destroying && s.queued == 0 && forall t :: t in s.pc ==> s.pc[t].Idle?
    ensures var s := Reached(actions);
            s.word == Word(false, false, false, 0) && s.inbox.Blocked? && s.cached == 0 && !s.live
  {
    ReachedInv(actions);
    var s := Reached(actions);
    assert forall r :: Holders(s.pc, r) == {};
  }

  /** With job nodes created only by sends there is exactly one while `scheduled` or `running`, else none. */
  lemma ExactlyOneJob(actions: seq<Action>)
    requires IsRun(Init(), actions) && NoPoke(actions)
    ensures var s := Reached(actions);
            !s.word.destroying ==> Jobs(s) == if s.word.scheduled || s.word.running then 1 else 0
  {
    ReachedInv(actions);
  }

  lemma {:induction false} PrefixIsRun(s: State, actions: seq<Action>, i: nat)
    requires IsRun(s, actions) && i <= |actions|
    ensures IsRun(s, actions[..i])
    decreases i
  {
    if i > 0 {
      assert actions[..i][1..] == actions[1..][..i - 1];
      PrefixIsRun(Apply(s, actions[0]), actions[1..], i - 1);
    }
  }

  /** The state before the `i`-th action of a run, or after the last. */
  ghost function Midway(s: State, actions: seq<Action>, i: nat): State
    requires IsRun(s, actions) && i <= |actions|
  {
    PrefixIsRun(s, actions, i);
    After(s, actions[..i])
  }

  lemma MidwayLater(s: State, actions: seq<Action>, i: nat)
    requires IsRun(s, actions) && 0 < i <= |actions|
    ensures Midway(s, actions, i) == Midway(Apply(s, actions[0]), actions[1..], i - 1)
  {
    assert actions[..i][1..] == actions[1..][..i - 1];
  }

  ghost predicate AlwaysOneJob(s: State, actions: seq<Action>)
    requires IsRun(s, actions)
  {
    forall i :: 0 <= i <= |actions| ==> OneJob(Midway(s, actions, i))
  }

  /** Whoever drives the actor without a node does so only once `destroying` is published. */
  ghost predicate PokesOnlyDying(s: State, actions: seq<Action>)
    requires IsRun(s, actions)
  {
    forall i :: 0 <= i < |actions| && actions[i].Poke? ==> Midway(s, actions, i).word.destroying
  }

  /** A poke of a living actor is always one node too many. */
  lemma PokeBreaksOneJob(s: State, t: Tid, max: nat)
    requires Inv(s) && Enabled(s, Poke(t, max))
    ensures OneJob(s) ==> (OneJob(Apply(s, Poke(t, max))) <==> s.word.destroying)
  {
    CountsMove(s.pc, t, ResumeStart(max));
  }

  lemma JobStep(s: State, a: Action)
    requires Inv(s) && OneJob(s) && Enabled(s, a)
    ensures OneJob(Apply(s, a)) <==> (a.Poke? ==> s.word.destroying)
  {
    if a.Poke? {
      PokeBreaksOneJob(s, a.t, a.max);
    } else {
      StepInv(s, a);
    }
  }

  lemma AlwaysStep(s: State, actions: seq<Action>)
    requires IsRun(s, actions) && actions != []
    ensures AlwaysOneJob(s, actions) <==> OneJob(s) && AlwaysOneJob(Apply(s, actions[0]), actions[1..])
  {
    var s', rest := Apply(s, actions[0]), actions[1..];
    assert Midway(s, actions, 0) == s;
    forall i | 0 < i <= |actions|
      ensures Midway(s, actions, i) == Midway(s', rest, i - 1)
    {
      MidwayLater(s, actions, i);
    }
    if AlwaysOneJob(s, actions) {
      forall i | 0 <= i <= |rest| ensures OneJob(Midway(s', rest, i)) {
        assert OneJob(Midway(s, actions, i + 1));
      }
    }
  }

  lemma PokesStep(s: State, actions: seq<Action>)
    requires IsRun(s, actions) && actions != []
    ensures PokesOnlyDying(s, actions)
       <==> (actions[0].Poke? ==> s.word.destroying) && PokesOnlyDying(Apply(s, actions[0]), actions[1..])
  {
    var s', rest := Apply(s, actions[0]), actions[1..];
    assert Midway(s, actions, 0) == s;
    forall i | 0 < i < |actions|
      ensures Midway(s, actions, i) == Midway(s', rest, i - 1) && actions[i] == rest[i - 1]
    {
      MidwayLater(s, actions, i);
    }
    if PokesOnlyDying(s, actions) {
      forall i | 0 <= i < |rest| && rest[i].Poke? ensures Midway(s', rest, i).word.destroying {
        assert actions[i + 1].Poke?;
      }
    }
  }

  lemma {:induction false} OneJobRun(s: State, actions: seq<Action>)
    requires IsRun(s, actions) && Inv(s) && OneJob(s)
    ensures AlwaysOneJob(s, actions) <==> PokesOnlyDying(s, actions)
    decreases |actions|
  {
    if actions == [] {
      assert Midway(s, actions, 0) == s;
    } else {
      AlwaysStep(s, actions);
      PokesStep(s, actions);
      JobStep(s, actions[0]);
      StepInv(s, actions[0]);
      var s', rest := Apply(s, actions[0]), actions[1..];
      if OneJob(s') {
        OneJobRun(s', rest);
      } else {
        assert Midway(s', rest, 0) == s';
      }
    }
  }

  /**
   The law of the single node holds all along a run if and only if nobody drives the actor without a
   node before `destroying` is published.
   */
  lemma OneJobExactly(actions: seq<Action>)
    requires IsRun(Init(), actions)
    ensures AlwaysOneJob(Init(), actions) <==> PokesOnlyDying(Init(), actions)
  {
    InitInv();
    OneJobRun(Init(), actions);
  }

  /** Two pokes of a parked actor make two nodes. */
  lemma PokeMakesSecondJob()
    ensures var actions := [Poke(0, 1), Poke(1, 1)];
            IsRun(Init(), actions) && !Reached(actions).word.destroying && Jobs(Reached(actions)) == 2
  {
    var s := Init();
    var s1 := Apply(s, Poke(0, 1));
    var s2 := Apply(s1, Poke(1, 1));
    var rest := [Poke(0, 1), Poke(1, 1)][1..];
    assert rest == [Poke(1, 1)] && rest[1..] == [];
    assert IsRun(s1, rest) && After(s1, rest) == s2;
    assert Holders(s2.pc, Job) == {0, 1};
  }

  // ---------- one turn ----------

  /** `running` is a lock: at most one thread is between its acquisition and its release. */
  lemma OneRunner(actions: seq<Action>, t: Tid, u: Tid)
    requires IsRun(Init(), actions)
    requires Runs(PcOf(Reached(actions), t)) && Runs(PcOf(Reached(actions), u))
    ensures t == u && Reached(actions).word.running
  {
    ReachedInv(actions);
  }

  /**
   While a turn is open its own inbox is never found blocked before it parks, a suspended behavior
   never reaches `park` nor is overwritten by the next message, and the messages counted are the
   messages popped.
   */
  lemma TurnFacts(actions: seq<Action>, t: Tid)
    requires IsRun(Init(), actions) && PcOf(Reached(actions), t).RunAt?
    ensures var s, p := Reached(actions), PcOf(Reached(actions), t);
            && (p.phase == EntryBlocked || p.phase == HeadBlocked ==> !s.inbox.Blocked?)
            && (p.phase == ParkBlock || p.phase == Deliver ==> !s.live)
            && p.handled <= p.max
            && s.popped == p.handled + (if p.phase == Deliver then 1 else 0)
  {
    ReachedInv(actions);
  }

  /**
   The verdict: the turn reports exactly what it popped and at most its throughput; a suspended
   behavior yields `resume`; `resume` leaves `scheduled` set, and `awaiting` leaves both flags clear.
   */
  lemma VerdictFacts(actions: seq<Action>, t: Tid, c: Choice)
    requires IsRun(Init(), actions) && PcOf(Reached(actions), t).GuardCas?
    requires var s := Reached(actions); s.word == PcOf(s, t).seen && !c.spurious
    ensures var s := Reached(actions);
            var s' := Apply(s, Advance(t, c));
            var r := PcOf(s', t);
            && r.ResumeReturned?
            && r.handled == s.popped <= PcOf(s, t).max
            && !s'.word.running
            && (!s.word.destroying ==>
                  && !r.verdict.Done?
                  && (s.live ==> r.verdict.Resume?)
                  && (r.verdict.Resume? ==> s.live || Waiting(s) > 0 || PcOf(s, t).scheduledWhileRunning)
                  && (r.verdict.Awaiting? ==> s.cached == 0)
                  && (r.verdict.Resume? <==> s'.word.scheduled))
  {
    ReachedInv(actions);
  }

  /** A second driver never gets the turn: it marks the actor scheduled and is told `awaiting`. */
  lemma ContendedVerdict(actions: seq<Action>, t: Tid, c: Choice)
    requires IsRun(Init(), actions) && PcOf(Reached(actions), t).ResumeAcquire?
    requires var s := Reached(actions); s.word == PcOf(s, t).seen && s.word.running && !c.spurious
    ensures var s := Reached(actions);
            var s' := Apply(s, Advance(t, c));
            && PcOf(s', t) == ResumeReturned(Awaiting, 0) && s'.word.scheduled
            && s'.owner == s.owner != t && s'.owner in s'.pc && Runs(s'.pc[s'.owner])
            && (!s.word.destroying ==> Jobs(s') > 0)
  {
    ReachedInv(actions);
    var s := Reached(actions);
    StepInv(s, Advance(t, c));
  }

  /** The driver that gets the turn gets it alone, with `scheduled` cleared: what sets it again is new. */
  lemma AcquiredTurn(actions: seq<Action>, t: Tid, c: Choice)
    requires IsRun(Init(), actions) && PcOf(Reached(actions), t).ResumeAcquire?
    requires var s := Reached(actions); s.word == PcOf(s, t).seen && !s.word.running && !c.spurious
    ensures var s := Reached(actions);
            var s' := Apply(s, Advance(t, c));
            && Runs(PcOf(s', t)) && s'.owner == t && s'.popped == 0
            && s'.word == Word(false, true, s.word.destroying, s.word.senders)
            && forall u :: Runs(PcOf(s', u)) ==> u == t
  {
    ReachedInv(actions);
    StepInv(Reached(actions), Advance(t, c));
  }

  /** How many of its own steps a turn can still take, failed exchanges aside. */
  function TurnMeasure(p: Pc): nat
    requires Runs(p) && (p.RunAt? ==> p.handled <= p.max)
  {
    if p.GuardCas? then 1 else if p.GuardLoad? then 2 else
    20 * (p.max - p.handled) +
    match p.phase
    case EntryDestroying => 26 case EntryClosed => 25 case EntryUnpark => 24
    case EntryDrain => 23 case EntryBlocked => 22 case EntryEmpty => 21
    case HeadDestroying => 20 case HeadClosed => 19 case HeadBlocked => 18
    case HeadDrain => 17 case HeadPop => 16 case Deliver => 15
    case NothingPopped => 14 case TailClosed => 13 case TailBusy => 12
    case ParkBlock => 11 case ParkRaceBlocked => 10 case ParkRaceEmpty => 9
  }

  lemma EntryProgress(s: State, t: Tid, c: Choice, p: Pc)
    requires RunnerInv(s) && p == PcOf(s, t) && p.RunAt? && AtEntry(p.phase) && (p.phase == EntryEmpty ==> s.inbox.Open?)
    ensures var q := PcOf(AdvanceRunner(s, t, p, c), t);
            Runs(q) && (q.RunAt? ==> q.handled <= q.max) && TurnMeasure(q) < TurnMeasure(p)
  {
  }

  lemma LoopProgress(s: State, t: Tid, c: Choice, p: Pc)
    requires RunnerInv(s) && p == PcOf(s, t) && p.RunAt? && !AtEntry(p.phase)
    requires p.phase == ParkRaceEmpty ==> s.inbox.Open?
    requires p.phase == HeadPop ==> s.cached > 0 || s.inbox.Open?
    ensures var q := PcOf(AdvanceRunner(s, t, p, c), t);
            Runs(q) && (q.RunAt? ==> q.handled <= q.max) && TurnMeasure(q) < TurnMeasure(p)
  {
  }

  /** A turn terminates: every step of the runner but a failed exchange brings its end nearer. */
  lemma TurnProgress(s: State, t: Tid, c: Choice)
    requires Inv(s) && Runs(PcOf(s, t)) && Enabled(s, Advance(t, c))
    ensures var p, q := PcOf(s, t), PcOf(Apply(s, Advance(t, c)), t);
            || q.ResumeReturned?
            || (p.GuardCas? && q.GuardCas? && (s.word != p.seen || c.spurious))
            || (Runs(q) && (q.RunAt? ==> q.handled <= q.max) && TurnMeasure(q) < TurnMeasure(p))
  {
    var p := PcOf(s, t);
    if p.RunAt? && AtEntry(p.phase) {
      EntryProgress(s, t, c, p);
    } else if p.RunAt? {
      LoopProgress(s, t, c, p);
    }
  }

  /** The assertions of the protocol never fail on a running actor, the sender bound aside. */
  lemma AssertionsHold(actions: seq<Action>, t: Tid, c: Choice)
    requires IsRun(Init(), actions)
    requires var s := Reached(actions);
             var p := PcOf(s, t);
             !p.Idle? && !s.dtor.Gone? && (p.SendGate? ==> p.seen.senders < MAX_SENDERS)
    ensures var s := Reached(actions);
            var p := PcOf(s, t);
            && Enabled(s, Advance(t, c))
            && (p.GuardCas? ==> p.seen.running)
            && (p.RunAt? && p.phase == EntryUnpark ==> s.word.running)
            && (p.RunAt? && p.phase == ParkBlock ==> !s.live)
  {
    ReachedInv(actions);
  }
}
