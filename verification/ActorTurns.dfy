/** What becomes of the messages: conservation over whole runs, and what one turn gets done. */
module ActorTurns {
  import opened Wrappers
  import opened StateWord
  import opened ActorMachine
  import opened ActorInvariants
  import opened ActorTheorems
  import opened ActorEvents

  // ---------- conservation ----------

  lemma StepCounts(s: State, a: Action)
    requires Inv(s) && Enabled(s, a) && !Apply(s, a).dtor.Gone?
    ensures Waiting(Apply(s, a)) + One(Happens(s, a, Hand)) == Waiting(s) + One(Happens(s, a, Push))
  {
    if a.Advance? {
      AdvanceCounts(s, a.t, a.c, PcOf(s, a.t));
    }
  }

  lemma AdvanceCounts(s: State, t: Tid, c: Choice, p: Pc)
    requires Inv(s) && p == PcOf(s, t) && Enabled(s, Advance(t, c)) && !s.dtor.Gone?
    ensures var s' := Apply(s, Advance(t, c));
            Waiting(s') + One(Happens(s, Advance(t, c), Hand)) == Waiting(s) + One(Happens(s, Advance(t, c), Push))
  {
    if p.RunAt? {
      RunnerCounts(s, t, c, p);
    }
  }

  lemma RunnerCounts(s: State, t: Tid, c: Choice, p: Pc)
    requires Inv(s) && p == PcOf(s, t) && p.RunAt? && Enabled(s, Advance(t, c)) && !s.dtor.Gone?
    ensures var s' := AdvanceRunner(s, t, p, c);
            Waiting(s') + One(!Delivers(p) && Delivers(PcOf(s', t))) == Waiting(s)
  {
  }

  lemma {:induction false} RunCounts(s: State, actions: seq<Action>)
    requires Inv(s) && IsRun(s, actions) && !After(s, actions).dtor.Gone?
    ensures Waiting(After(s, actions)) + Times(s, actions, Hand) == Waiting(s) + Times(s, actions, Push)
    decreases |actions|
  {
    if actions != [] {
      var s' := Apply(s, actions[0]);
      StepInv(s, actions[0]);
      if s'.dtor.Gone? {
        StaysGone(s', actions[1..]);
      }
      StepCounts(s, actions[0]);
      RunCounts(s', actions[1..]);
    }
  }

  lemma {:induction false} StaysGone(s: State, actions: seq<Action>)
    requires IsRun(s, actions) && s.dtor.Gone?
    ensures After(s, actions).dtor.Gone?
    decreases |actions|
  {
    if actions != [] {
      StaysGone(Apply(s, actions[0]), actions[1..]);
    }
  }

  /**
   Until the mailbox is destroyed, every message that found the inbox open or blocked was handed to a
   runner for delivery or is still in the mailbox.
   */
  lemma MessagesConserved(actions: seq<Action>)
    requires IsRun(Init(), actions) && !Reached(actions).dtor.Gone?
    ensures Times(Init(), actions, Push) == Times(Init(), actions, Hand) + Waiting(Reached(actions))
  {
    InitInv();
    RunCounts(Init(), actions);
  }

  /** A turn gives up before its throughput is used only with nothing cached. */
  lemma ParksOnlyEmpty(actions: seq<Action>, t: Tid)
    requires IsRun(Init(), actions) && PcOf(Reached(actions), t).RunAt?
    ensures var s, p := Reached(actions), PcOf(Reached(actions), t);
            (p.phase == ParkBlock || p.phase == NothingPopped) && p.handled < p.max ==> s.cached == 0
  {
    ReachedInv(actions);
  }

  // ---------- one turn ----------

  /** What a turn of throughput `max` that began with `n` messages waiting and no live behavior has got done. */
  ghost predicate GotDone(s: State, p: Pc, max: nat, n: nat)
    requires Runs(p)
  {
    && p.max == max
    && (s.live ==> p.handled >= 1)
    && (p.RunAt? && AtEntry(p.phase) ==> Waiting(s) >= n && !s.live)
    && (p.RunAt? && InLoop(p.phase) && p.phase != NothingPopped ==>
          Waiting(s) + p.handled + One(p.phase == Deliver) >= n)
    && (p.RunAt? && !AtEntry(p.phase) && (!InLoop(p.phase) || p.phase == NothingPopped) ==>
          p.handled >= n || p.handled == max)
    && (!p.RunAt? ==> s.live || p.handled >= n || p.handled == max)
  }

  lemma OthersLeaveMessages(s: State, a: Action, t: Tid)
    requires Inv(s) && Enabled(s, a) && Runs(PcOf(s, t)) && (a.Destroy? || a.t != t)
    ensures var s' := Apply(s, a);
            && PcOf(s', t) == PcOf(s, t) && s'.live == s.live
            && (s.word.destroying ==> s'.word.destroying)
            && (s'.word.destroying || Waiting(s') >= Waiting(s))
  {
    if a.Advance? {
      OthersAdvance(s, a.t, a.c, PcOf(s, a.t));
    }
  }

  lemma OthersAdvance(s: State, u: Tid, c: Choice, p: Pc)
    requires Inv(s) && p == PcOf(s, u) && Enabled(s, Advance(u, c)) && !Runs(p)
    ensures var s' := Apply(s, Advance(u, c));
            && s'.pc == s.pc[u := PcOf(s', u)] && s'.live == s.live && s'.word.destroying == s.word.destroying
            && Waiting(s') >= Waiting(s)
  {
  }

  lemma TurnEntry(s: State, t: Tid, c: Choice, p: Pc, max: nat, n: nat)
    requires Inv(s) && p == PcOf(s, t) && p.RunAt? && AtEntry(p.phase) && Enabled(s, Advance(t, c))
    requires !s.word.destroying && GotDone(s, p, max, n)
    ensures var s' := AdvanceRunner(s, t, p, c); Runs(PcOf(s', t)) && GotDone(s', PcOf(s', t), max, n)
  {
  }

  lemma TurnLoop(s: State, t: Tid, c: Choice, p: Pc, max: nat, n: nat)
    requires Inv(s) && p == PcOf(s, t) && p.RunAt? && InLoop(p.phase) && Enabled(s, Advance(t, c))
    requires !s.word.destroying && GotDone(s, p, max, n)
    ensures var s' := AdvanceRunner(s, t, p, c); Runs(PcOf(s', t)) && GotDone(s', PcOf(s', t), max, n)
  {
  }

  lemma TurnEnd(s: State, t: Tid, c: Choice, p: Pc, max: nat, n: nat)
    requires Inv(s) && p == PcOf(s, t) && p.RunAt? && !AtEntry(p.phase) && !InLoop(p.phase) && Enabled(s, Advance(t, c))
    requires !s.word.destroying && GotDone(s, p, max, n)
    ensures var s' := AdvanceRunner(s, t, p, c); Runs(PcOf(s', t)) && GotDone(s', PcOf(s', t), max, n)
  {
  }

  lemma TurnStep(s: State, a: Action, t: Tid, max: nat, n: nat)
    requires Inv(s) && Enabled(s, a) && Runs(PcOf(s, t)) && Runs(PcOf(Apply(s, a), t))
    requires s.word.destroying || GotDone(s, PcOf(s, t), max, n)
    ensures var s' := Apply(s, a); s'.word.destroying || GotDone(s', PcOf(s', t), max, n)
  {
    var p := PcOf(s, t);
    if a.Destroy? || a.t != t {
      OthersLeaveMessages(s, a, t);
    } else if s.word.destroying || !p.RunAt? {
    } else if AtEntry(p.phase) {
      TurnEntry(s, t, a.c, p, max, n);
    } else if InLoop(p.phase) {
      TurnLoop(s, t, a.c, p, max, n);
    } else {
      TurnEnd(s, t, a.c, p, max, n);
    }
  }

  /** All along `rest` the thread is in one and the same turn. */
  ghost predicate InOneTurn(s: State, rest: seq<Action>, t: Tid)
    requires IsRun(s, rest)
  {
    forall i :: 0 <= i <= |rest| ==> Runs(PcOf(Midway(s, rest, i), t))
  }

  lemma LaterInTurn(s: State, rest: seq<Action>, t: Tid)
    requires IsRun(s, rest) && rest != [] && InOneTurn(s, rest, t)
    ensures Runs(PcOf(s, t)) && InOneTurn(Apply(s, rest[0]), rest[1..], t)
  {
    assert Midway(s, rest, 0) == s;
    forall i | 0 <= i <= |rest[1..]|
      ensures Runs(PcOf(Midway(Apply(s, rest[0]), rest[1..], i), t))
    {
      MidwayLater(s, rest, i + 1);
      assert Runs(PcOf(Midway(s, rest, i + 1), t));
    }
  }

  lemma {:induction false} TurnRun(s: State, rest: seq<Action>, t: Tid, max: nat, n: nat)
    requires Inv(s) && IsRun(s, rest) && InOneTurn(s, rest, t)
    requires Runs(PcOf(s, t)) && (s.word.destroying || GotDone(s, PcOf(s, t), max, n))
    ensures var s' := After(s, rest);
            Runs(PcOf(s', t)) && (s'.word.destroying || GotDone(s', PcOf(s', t), max, n))
    decreases |rest|
  {
    if rest != [] {
      var s' := Apply(s, rest[0]);
      LaterInTurn(s, rest, t);
      assert Midway(s', rest[1..], 0) == s';
      TurnStep(s, rest[0], t, max, n);
      StepInv(s, rest[0]);
      TurnRun(s', rest[1..], t, max, n);
    }
  }

  /**
   A turn that begins with messages waiting and no behavior suspended, on an actor that is not being
   destroyed, handles at least one; and unless a behavior suspends on it, as many as waited or as its
   throughput allows.
   */
  lemma TurnHandlesMessages(before: seq<Action>, rest: seq<Action>, t: Tid)
    requires IsRun(Init(), before) && IsRun(Reached(before), rest)
    requires var s := Reached(before);
             PcOf(s, t).RunAt? && PcOf(s, t).phase == EntryDestroying && !s.live && InOneTurn(s, rest, t)
    ensures var s, s' := Reached(before), After(Reached(before), rest);
            var p, n, max := PcOf(s', t), Waiting(s), PcOf(s, t).max;
            && Runs(p) && max > 0
            && (!p.RunAt? && !s'.word.destroying ==>
                  && (n > 0 ==> p.handled >= 1)
                  && (s'.live || p.handled >= n || p.handled == max))
  {
    ReachedInv(before);
    var s := Reached(before);
    TurnRun(s, rest, t, PcOf(s, t).max, Waiting(s));
  }

  /** A turn that begins on an actor being destroyed answers `done` at once and handles nothing. */
  lemma DyingTurnIsDone(before: seq<Action>, t: Tid, c: Choice)
    requires IsRun(Init(), before)
    requires var s := Reached(before);
             PcOf(s, t).RunAt? && PcOf(s, t).phase == EntryDestroying && s.word.destroying
    ensures var s := Reached(before);
            && Enabled(s, Advance(t, c))
            && PcOf(Apply(s, Advance(t, c)), t) == GuardLoad(PcOf(s, t).max, Done, 0, false)
            && Waiting(Apply(s, Advance(t, c))) == Waiting(s) && Apply(s, Advance(t, c)).live == s.live
  {
    ReachedInv(before);
  }
}
