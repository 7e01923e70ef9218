/** The destructor of the actor: it waits out every sender, and every runner whose job node is accounted for. */
module ActorDestruction {
  import opened Wrappers
  import opened StateWord
  import opened ActorMachine
  import opened ActorInvariants
  import opened ActorTheorems

  lemma DestroyingSender(s: State, t: Tid, c: Choice, p: Pc)
    requires Inv(s) && s.word.destroying && p == PcOf(s, t)
    requires p.SendGate? || p.SendRegistered? || p.SendPushed? || p.SendLeave? || p.SendReturned?
    ensures var s' := AdvanceSender(s, t, p, c);
            && (s'.word.destroying ==> s'.word.senders <= s.word.senders || (p.SendGate? && s.word == p.seen))
            && PcOf(s', t) != SendReturned(true)
            && (Has(Registered, PcOf(s', t)) ==> Has(Registered, p) || s.word == p.seen)
  {
    if p.SendLeave? {
      CountTwo(s.pc, t, t, Registered);
    }
  }

  // The turn itself never writes the state word.
  lemma RunnerKeepsWord(s: State, t: Tid, c: Choice, p: Pc)
    requires p == PcOf(s, t) && p.RunAt?
    requires p.phase in {EntryEmpty, ParkRaceEmpty} ==> s.inbox.Open?
    requires p.phase == HeadPop ==> s.cached > 0 || s.inbox.Open?
    ensures AdvanceRunner(s, t, p, c).word == s.word && Runs(PcOf(AdvanceRunner(s, t, p, c), t))
  {
  }

  lemma DestroyingRunner(s: State, t: Tid, c: Choice, p: Pc)
    requires Enabled(s, Advance(t, c)) && s.word.destroying && p == PcOf(s, t)
    requires Runs(p) || p.ResumeStart? || p.ResumeAcquire? || p.ResumeReturned?
    ensures var s' := Apply(s, Advance(t, c));
            && s'.word.senders == s.word.senders
            && !Has(Registered, PcOf(s', t)) && !PcOf(s', t).SendReturned?
  {
    if p.RunAt? {
      RunnerKeepsWord(s, t, c, p);
    }
  }

  // A thread only changes its own program counter.
  lemma OthersStay(s: State, a: Action, t: Tid)
    requires Enabled(s, a)
    requires match a case Destroy(_) => true case _ => a.t != t
    ensures PcOf(Apply(s, a), t) == PcOf(s, t)
  {
  }

  lemma DestroyingAdvanceSelf(s: State, t: Tid, c: Choice)
    requires Inv(s) && Enabled(s, Advance(t, c)) && s.word.destroying
    ensures var s' := Apply(s, Advance(t, c));
            && s'.word.destroying
            && s'.word.senders <= s.word.senders
            && PcOf(s', t) != SendReturned(true)
            && (Has(Registered, PcOf(s', t)) ==> Has(Registered, PcOf(s, t)))
  {
    var p := PcOf(s, t);
    if p.SendGate? || p.SendRegistered? || p.SendPushed? || p.SendLeave? || p.SendReturned? {
      DestroyingSend(s, t, c, p);
    } else {
      DestroyingRunner(s, t, c, p);
    }
  }

  lemma DestroyingSend(s: State, t: Tid, c: Choice, p: Pc)
    requires Inv(s) && Enabled(s, Advance(t, c)) && s.word.destroying && p == PcOf(s, t)
    requires p.SendGate? || p.SendRegistered? || p.SendPushed? || p.SendLeave? || p.SendReturned?
    ensures var s' := AdvanceSender(s, t, p, c);
            && s'.word.destroying
            && s'.word.senders <= s.word.senders
            && PcOf(s', t) != SendReturned(true)
            && (Has(Registered, PcOf(s', t)) ==> Has(Registered, p))
  {
    DestroyingSender(s, t, c, p);
  }

  lemma DestroyingAdvance(s: State, u: Tid, c: Choice, t: Tid)
    requires Inv(s) && Enabled(s, Advance(u, c)) && s.word.destroying
    ensures var s' := Apply(s, Advance(u, c));
            && s'.word.destroying
            && s'.word.senders <= s.word.senders
            && (PcOf(s', t) == SendReturned(true) ==> PcOf(s, t) == SendReturned(true))
            && (Has(Registered, PcOf(s', t)) ==> Has(Registered, PcOf(s, t)))
  {
    DestroyingAdvanceSelf(s, u, c);
    if u != t { OthersStay(s, Advance(u, c), t); }
  }

  /** Once `destroying` is published it stays, the sender count never grows and no send is told to schedule. */
  lemma DestroyingStep(s: State, a: Action, t: Tid)
    requires Inv(s) && Enabled(s, a) && s.word.destroying
    ensures var s' := Apply(s, a);
            && s'.word.destroying
            && s'.word.senders <= s.word.senders
            && (PcOf(s', t) == SendReturned(true) ==> PcOf(s, t) == SendReturned(true))
            && (Has(Registered, PcOf(s', t)) ==> Has(Registered, PcOf(s, t)))
  {
    match a
    case Send(u) => if u != t { OthersStay(s, a, t); }
    case TakeJob(u, _) => if u != t { OthersStay(s, a, t); }
    case Poke(u, _) => if u != t { OthersStay(s, a, t); }
    case Destroy(_) => OthersStay(s, a, t);
    case Advance(u, c) => DestroyingAdvance(s, u, c, t);
  }

  /** The same over any run that starts after `destroying` was published. */
  lemma {:induction false} DestroyingRun(s: State, actions: seq<Action>, t: Tid)
    requires Inv(s) && IsRun(s, actions) && s.word.destroying
    ensures var s' := After(s, actions);
            && s'.word.destroying
            && s'.word.senders <= s.word.senders
            && (PcOf(s', t) == SendReturned(true) ==> PcOf(s, t) == SendReturned(true))
            && (Has(Registered, PcOf(s', t)) ==> Has(Registered, PcOf(s, t)))
    decreases |actions|
  {
    if actions != [] {
      DestroyingStep(s, actions[0], t);
      StepInv(s, actions[0]);
      DestroyingRun(Apply(s, actions[0]), actions[1..], t);
    }
  }

  /** The destructor's drain ends only when nobody runs the actor and no sender is registered. */
  lemma DrainWaits(actions: seq<Action>, c: Choice)
    requires IsRun(Init(), actions) && Reached(actions).dtor.Draining?
    requires Apply(Reached(actions), Destroy(c)).dtor != Draining
    ensures var s := Reached(actions);
            && !s.word.running && s.word.senders == 0
            && forall t :: !Runs(PcOf(s, t)) && !Has(Registered, PcOf(s, t))
  {
    ReachedInv(actions);
    var s := Reached(actions);
    forall t
      ensures !Has(Registered, PcOf(s, t))
    {
      if Has(Registered, PcOf(s, t)) {
        CountTwo(s.pc, t, t, Registered);
      }
    }
  }

  /** When the destructor is past its drain, no sender is between its registration and its last exchange. */
  lemma TerminalHasNoSender(actions: seq<Action>, t: Tid)
    requires IsRun(Init(), actions)
    requires var d := Reached(actions).dtor; d.TerminalLoad? || d.Terminal? || d.Dead? || d.Gone?
    ensures var s := Reached(actions);
            && s.word.senders == 0 && !Has(Registered, PcOf(s, t))
            && (s.dtor.Terminal? ==> s.dtor.seen.senders == 0)
  {
    ReachedInv(actions);
    var s := Reached(actions);
    if Has(Registered, PcOf(s, t)) {
      CountTwo(s.pc, t, t, Registered);
    }
  }

  // ---------- the runner's side ----------

  /** The assertion of the terminal loop, that nobody runs, on the word it last loaded. */
  predicate TerminalAssertionHolds(s: State)
  {
    s.dtor.Terminal? ==> !s.dtor.seen.running
  }

  /** No job node is left and none can appear. */
  ghost predicate Retired(s: State)
  {
    Inv(s) && s.word.destroying && Jobs(s) == 0 && TerminalAssertionHolds(s)
  }

  lemma RetiredStep(s: State, a: Action)
    requires Retired(s) && Enabled(s, a) && !a.Poke?
    ensures Retired(Apply(s, a))
  {
    StepInv(s, a);
    if s.word.running {
      CountTwo(s.pc, s.owner, s.owner, Job);
    }
    match a
    case Send(t) => CountMoves(s.pc, t, SendGate(s.word), Job);
    case Advance(t, c) => RetiredAdvance(s, t, c, PcOf(s, t));
    case Destroy(_) =>
  }

  // With no node outstanding the only threads left are senders that will be told nothing.
  lemma RetiredAdvance(s: State, t: Tid, c: Choice, p: Pc)
    requires Retired(s) && Enabled(s, Advance(t, c)) && p == PcOf(s, t)
    ensures Jobs(Apply(s, Advance(t, c))) == 0 && Apply(s, Advance(t, c)).dtor == s.dtor
    ensures Apply(s, Advance(t, c)).word.destroying
  {
    if Has(Job, p) {
      CountTwo(s.pc, t, t, Job);
    }
    if p.ResumeReturned? {
      CountMoves(s.pc, t, Idle, Job);
    } else {
      DestroyingSender(s, t, c, p);
      CountMoves(s.pc, t, AdvanceSender(s, t, p, c).pc[t], Job);
    }
  }

  lemma {:induction false} RetiredRun(s: State, actions: seq<Action>)
    requires Retired(s) && IsRun(s, actions) && NoPoke(actions)
    ensures Retired(After(s, actions))
    decreases |actions|
  {
    if actions != [] {
      RetiredStep(s, actions[0]);
      RetiredRun(Apply(s, actions[0]), actions[1..]);
    }
  }

  // ---------- the condition is exact ----------

  const PLAIN := Choice(false, false, false)

  lemma FreshTid(pc: map<Tid, Pc>) returns (t: Tid)
    ensures t !in pc
  {
    t := Above(pc.Keys);
  }

  lemma Above(keys: set<Tid>) returns (t: Tid)
    ensures forall u :: u in keys ==> u < t
  {
    if keys == {} {
      t := 0;
    } else {
      var u :| u in keys;
      var v := Above(keys - {u});
      t := if u < v then v else u + 1;
      forall w | w in keys ensures w < t {
        assert w == u || w in keys - {u};
      }
    }
  }

  // A run of `rest` after the enabled action `a` is a run.
  lemma Prepend(s: State, a: Action, rest: seq<Action>)
    requires Enabled(s, a) && IsRun(Apply(s, a), rest) && !a.Poke? && NoPoke(rest)
    ensures IsRun(s, [a] + rest) && NoPoke([a] + rest)
    ensures After(s, [a] + rest) == After(Apply(s, a), rest)
  {
    assert ([a] + rest)[1..] == rest;
  }

  /** While the destructor rests past its drain, a job node in a driver's hand can still become a running turn. */
  lemma DriverCanRun(s: State, t: Tid) returns (actions: seq<Action>)
    requires !s.word.running && s.dtor.TerminalLoad? && (PcOf(s, t).ResumeStart? || PcOf(s, t).ResumeAcquire?)
    ensures IsRun(s, actions) && NoPoke(actions)
    ensures After(s, actions).word.running && After(s, actions).dtor.TerminalLoad?
    decreases if PcOf(s, t) == ResumeAcquire(PcOf(s, t).max, s.word) then 0 else 1
  {
    var a := Advance(t, PLAIN);
    var s' := Apply(s, a);
    if s'.word.running {
      Prepend(s, a, []);
      actions := [a] + [];
    } else {
      var rest := DriverCanRun(s', t);
      Prepend(s, a, rest);
      actions := [a] + rest;
    }
  }

  lemma QueueCanRun(s: State) returns (actions: seq<Action>)
    requires !s.word.running && s.dtor.TerminalLoad? && s.queued > 0
    ensures IsRun(s, actions) && NoPoke(actions)
    ensures After(s, actions).word.running && After(s, actions).dtor.TerminalLoad?
  {
    var t := FreshTid(s.pc);
    var a := TakeJob(t, 1);
    var rest := DriverCanRun(Apply(s, a), t);
    Prepend(s, a, rest);
    actions := [a] + rest;
  }

  lemma JobCanRun(s: State) returns (actions: seq<Action>)
    requires Inv(s) && s.dtor.TerminalLoad? && Jobs(s) > 0
    ensures IsRun(s, actions) && NoPoke(actions)
    ensures After(s, actions).word.running && After(s, actions).dtor.TerminalLoad?
  {
    if s.word.running {
      actions := [];
    } else if s.queued > 0 {
      actions := QueueCanRun(s);
    } else {
      CountPositive(s.pc, Job);
      var t :| t in s.pc && Has(Job, s.pc[t]);
      if PcOf(s, t).ResumeStart? || PcOf(s, t).ResumeAcquire? {
        actions := DriverCanRun(s, t);
      } else {
        var a := Advance(t, PLAIN);
        var rest := QueueCanRun(Apply(s, a));
        Prepend(s, a, rest);
        actions := [a] + rest;
      }
    }
  }

  lemma {:induction false} Append(s: State, actions: seq<Action>, a: Action)
    requires IsRun(s, actions) && Enabled(After(s, actions), a)
    ensures IsRun(s, actions + [a]) && After(s, actions + [a]) == Apply(After(s, actions), a)
    decreases |actions|
  {
    if actions == [] {
      assert ([] + [a])[1..] == [];
    } else {
      assert (actions + [a])[1..] == actions[1..] + [a];
      Append(Apply(s, actions[0]), actions[1..], a);
    }
  }

  /**
   The drain waits for a runner but not for its job node. The destructor's assertion that nobody
   runs holds in every continuation exactly when no job node is outstanding as the drain ends.
   */
  lemma TerminalAssertionExactly(actions: seq<Action>)
    requires IsRun(Init(), actions) && Reached(actions).dtor.TerminalLoad?
    ensures var s := Reached(actions);
            (forall rest :: IsRun(s, rest) && NoPoke(rest) ==> TerminalAssertionHolds(After(s, rest))) <==> Jobs(s) == 0
  {
    ReachedInv(actions);
    var s := Reached(actions);
    if Jobs(s) == 0 {
      forall rest | IsRun(s, rest) && NoPoke(rest) ensures TerminalAssertionHolds(After(s, rest)) {
        RetiredRun(s, rest);
      }
    } else {
      var rest := JobCanRun(s);
      var a := Destroy(PLAIN);
      Append(s, rest, a);
      assert NoPoke(rest + [a]);
      assert !TerminalAssertionHolds(After(s, rest + [a]));
    }
  }

  /** An outside drive defeats the assertion whatever the drain found: some continuation breaks it. */
  lemma OutsideDriveDefeatsAssertion(actions: seq<Action>) returns (rest: seq<Action>)
    requires IsRun(Init(), actions) && Reached(actions).dtor.TerminalLoad?
    ensures IsRun(Reached(actions), rest) && !TerminalAssertionHolds(After(Reached(actions), rest))
  {
    ReachedInv(actions);
    var s := Reached(actions);
    var drive;
    if Jobs(s) > 0 {
      drive := JobCanRun(s);
    } else {
      if s.word.running {
        CountTwo(s.pc, s.owner, s.owner, Job);
      }
      var t := FreshTid(s.pc);
      var poke := Poke(t, 1);
      var more := DriverCanRun(Apply(s, poke), t);
      assert ([poke] + more)[1..] == more;
      drive := [poke] + more;
    }
    Append(s, drive, Destroy(PLAIN));
    rest := drive + [Destroy(PLAIN)];
  }
}
