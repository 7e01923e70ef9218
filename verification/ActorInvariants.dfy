/** What every step of the scheduling protocol keeps, and what that gives over whole runs. */
module ActorInvariants {
  import opened Wrappers
  import opened StateWord
  import opened ActorMachine

  // ---------- the invariant ----------

  /** Between un-parking the inbox and parking it again. */
  predicate Unparked(phase: Phase)
  {
    phase !in {EntryDestroying, EntryClosed, EntryUnpark, ParkRaceBlocked}
  }

  /** Reached only past a check that the behavior is not suspended. */
  predicate Quiet(phase: Phase)
  {
    phase in {EntryBlocked, EntryEmpty, HeadPop, Deliver, NothingPopped, ParkBlock, ParkRaceBlocked, ParkRaceEmpty}
  }

  predicate InLoop(phase: Phase)
  {
    phase in {HeadDestroying, HeadClosed, HeadBlocked, HeadDrain, HeadPop, Deliver, NothingPopped}
  }

  predicate AtEntry(phase: Phase)
  {
    phase in {EntryDestroying, EntryClosed, EntryUnpark, EntryDrain, EntryBlocked, EntryEmpty}
  }

  /** Someone is committed to running the actor once the turn ends with `awaiting`. */
  ghost predicate Committed(s: State)
  {
    s.word.destroying || s.inbox.Blocked? || Count(s.pc, Pending) > 0 || s.word.scheduled
  }

  ghost predicate VerdictOk(s: State, verdict: Verdict, keep: bool)
  {
    && (keep <==> verdict.Resume?)
    && (verdict.Done? ==> s.word.destroying)
    && (verdict.Awaiting? ==> Committed(s) && s.cached == 0)
    && (s.live ==> verdict.Resume? || s.word.destroying)
    && (verdict.Resume? ==> s.live || Waiting(s) > 0 || s.word.destroying)
  }

  ghost predicate RunnerOk(s: State, p: Pc)
    requires Runs(p)
  {
    match p
    case RunAt(phase, max, handled) =>
      && handled <= max && max > 0
      && (InLoop(phase) ==> handled < max)
      && (phase in {TailClosed, TailBusy} ==> handled == max)
      && (AtEntry(phase) ==> handled == 0)
      && s.popped == handled + One(phase == Deliver)
      && (Unparked(phase) ==> !s.inbox.Blocked?)
      && (Quiet(phase) ==> !s.live)
      && (phase in {ParkRaceBlocked, ParkRaceEmpty} ==> Committed(s) && s.cached == 0)
      && (phase in {NothingPopped, ParkBlock} && handled < max ==> s.cached == 0)
    case GuardLoad(max, verdict, handled, keep) =>
      handled <= max && s.popped == handled && VerdictOk(s, verdict, keep)
    case GuardCas(max, verdict, handled, keep, scheduledWhileRunning, seen) =>
      && handled <= max && s.popped == handled && VerdictOk(s, verdict, keep)
      && seen.running
      && (seen.scheduled ==> scheduledWhileRunning)
      && (scheduledWhileRunning ==> s.word.scheduled)
  }

  ghost predicate RunnerInv(s: State)
  {
    && (forall t :: t in s.pc && Runs(s.pc[t]) ==> s.word.running && t == s.owner)
    && (s.word.running ==> s.owner in s.pc && Runs(s.pc[s.owner]) && RunnerOk(s, s.pc[s.owner]))
  }

  ghost predicate SenderInv(s: State)
  {
    && s.word.senders == Count(s.pc, Registered)
    && s.word.senders <= MAX_SENDERS
  }

  /** The words a thread has read and still relies on, and the throughput its driver passed. */
  predicate PcOk(p: Pc)
  {
    && (p.SendLeave? ==> p.seen.senders > 0)
    && (p.ResumeStart? || p.ResumeAcquire? ==> p.max > 0)
  }

  predicate PcInv(s: State)
  {
    forall t :: t in s.pc ==> PcOk(s.pc[t])
  }

  /** Waiting work, or an unparked inbox, has someone who will run the actor. */
  ghost predicate WakeInv(s: State)
  {
    && (s.inbox.Blocked? ==> s.cached == 0)
    && (!s.word.destroying ==>
          && (!s.inbox.Blocked? ==> s.word.scheduled || s.word.running || Count(s.pc, Pending) > 0)
          && (s.live ==> s.word.scheduled || s.word.running)
          && (s.word.scheduled || s.word.running ==> Jobs(s) > 0))
  }

  ghost predicate DtorInv(s: State)
  {
    && (s.inbox.Closed? <==> s.dtor.Gone?)
    && (s.dtor.Publish? && s.dtor.seen.destroying ==> s.word.destroying)
    && (s.word.destroying ==> !s.dtor.Alive?)
    && (!s.dtor.Alive? && !s.dtor.Publish? ==> s.word.destroying)
    && (s.dtor.TerminalLoad? || s.dtor.Terminal? || s.dtor.Dead? || s.dtor.Gone? ==> s.word.senders == 0)
    && (s.dtor.Terminal? ==> s.dtor.seen.senders == 0)
  }

  ghost predicate Inv(s: State)
  {
    RunnerInv(s) && SenderInv(s) && PcInv(s) && WakeInv(s) && DtorInv(s)
  }

  /** With job nodes created only by sends: one node while `scheduled` or `running`, else none. */
  ghost predicate OneJob(s: State)
  {
    !s.word.destroying ==> Jobs(s) == One(s.word.scheduled || s.word.running)
  }

  // ---------- every step keeps it ----------

  lemma InitInv()
    ensures Inv(Init()) && OneJob(Init())
  {
    var s := Init();
    assert Holders(s.pc, Registered) == {} && Holders(s.pc, Pending) == {} && Holders(s.pc, Job) == {};
  }

  // The runner's own facts survive another thread's step on the word, the inbox and the counts.
  ghost predicate RunnerFrame(s: State, s': State)
  {
    && s'.owner == s.owner && s'.popped == s.popped && s'.live == s.live
    && s'.word.running == s.word.running
    && (s.word.scheduled ==> s'.word.scheduled)
    && (s.word.destroying ==> s'.word.destroying)
    && (s'.inbox.Blocked? ==> s.inbox.Blocked?)
    && (Committed(s) ==> Committed(s'))
    && (s.cached == 0 ==> s'.cached == 0)
    && (s'.word.destroying || Waiting(s') >= Waiting(s))
  }

  lemma RunnerUndisturbed(s: State, s': State, t: Tid, p: Pc)
    requires RunnerInv(s) && !Runs(PcOf(s, t)) && !Runs(p)
    requires s'.pc == s.pc[t := p] && RunnerFrame(s, s')
    ensures RunnerInv(s')
  {
    if s.word.running {
      assert t != s.owner;
      assert s'.pc[s.owner] == s.pc[s.owner];
    }
  }

  // Inv and OneJob after a step of a thread that is not the runner, from how that thread's roles change.
  lemma Rebuild(s: State, s': State, t: Tid, p: Pc, q: Pc)
    requires Inv(s) && p == PcOf(s, t) && !p.Idle? && !Runs(p) && !Runs(q) && PcOk(q)
    requires s'.pc == s.pc[t := q]
    requires s'.owner == s.owner && s'.popped == s.popped && s'.live == s.live && s'.cached == s.cached && s'.dtor == s.dtor
    requires s'.word.running == s.word.running && s'.word.destroying == s.word.destroying
    requires s.word.scheduled ==> s'.word.scheduled
    requires s'.inbox.Blocked? ==> s.inbox.Blocked?
    requires s'.inbox.Closed? <==> s.inbox.Closed?
    requires Waiting(s') >= Waiting(s)
    requires s.inbox.Blocked? && !s'.inbox.Blocked? ==> Has(Pending, q)
    requires Has(Pending, p) && !Has(Pending, q) ==> s'.word.scheduled || s'.word.destroying
    requires s'.word.senders == s.word.senders - One(Has(Registered, p)) + One(Has(Registered, q)) <= MAX_SENDERS
    requires s.word.destroying ==> s'.word.senders <= s.word.senders
    requires var before, after := s.queued + One(Has(Job, p)), s'.queued + One(Has(Job, q));
             after == before + One(s'.word.scheduled && !s.word.scheduled && !s.word.running)
    ensures Inv(s') && (OneJob(s) ==> OneJob(s'))
  {
    CountsMove(s.pc, t, q);
    if Has(Pending, q) {
      CountTwo(s'.pc, t, t, Pending);
    }
    RunnerUndisturbed(s, s', t, q);
  }

  lemma GateStep(s: State, t: Tid, c: Choice, p: Pc)
    requires Inv(s) && p == PcOf(s, t) && p.SendGate? && (!p.seen.destroying ==> p.seen.senders < MAX_SENDERS)
    ensures var s' := AdvanceSender(s, t, p, c); Inv(s') && (OneJob(s) ==> OneJob(s'))
  {
    var s' := AdvanceSender(s, t, p, c);
    Rebuild(s, s', t, p, s'.pc[t]);
  }

  lemma LeaveStep(s: State, t: Tid, c: Choice, p: Pc)
    requires Inv(s) && p == PcOf(s, t) && p.SendLeave?
    ensures var s' := AdvanceSender(s, t, p, c); Inv(s') && (OneJob(s) ==> OneJob(s'))
  {
    if s.word == p.seen && !c.spurious {
      LeftStep(s, t, c, p);
    } else {
      CountTwo(s.pc, t, t, Registered);
      var s' := AdvanceSender(s, t, p, c);
      Rebuild(s, s', t, p, s'.pc[t]);
    }
  }

  lemma LeftStep(s: State, t: Tid, c: Choice, p: Pc)
    requires Inv(s) && p == PcOf(s, t) && p.SendLeave? && s.word == p.seen && !c.spurious
    ensures var s' := AdvanceSender(s, t, p, c); Inv(s') && (OneJob(s) ==> OneJob(s'))
  {
    var s' := AdvanceSender(s, t, p, c);
    CountTwo(s.pc, t, t, Registered);
    Rebuild(s, s', t, p, s'.pc[t]);
  }

  lemma PushStep(s: State, t: Tid, c: Choice, p: Pc)
    requires Inv(s) && p == PcOf(s, t) && p.SendRegistered?
    ensures var s' := AdvanceSender(s, t, p, c); Inv(s') && (OneJob(s) ==> OneJob(s'))
  {
    var s' := AdvanceSender(s, t, p, c);
    Rebuild(s, s', t, p, s'.pc[t]);
  }

  lemma PushedStep(s: State, t: Tid, c: Choice, p: Pc)
    requires Inv(s) && p == PcOf(s, t) && (p.SendPushed? || p.SendReturned?)
    ensures var s' := AdvanceSender(s, t, p, c); Inv(s') && (OneJob(s) ==> OneJob(s'))
  {
    var s' := AdvanceSender(s, t, p, c);
    if p.SendPushed? {
      CountTwo(s.pc, t, t, Registered);
    }
    Rebuild(s, s', t, p, s'.pc[t]);
  }

  lemma DriverStep(s: State, t: Tid, c: Choice, p: Pc)
    requires Inv(s) && p == PcOf(s, t) && (p.ResumeStart? || p.ResumeReturned?)
    ensures var s' := AdvanceDriver(s, t, p, c); Inv(s') && (OneJob(s) ==> OneJob(s'))
  {
    var s' := AdvanceDriver(s, t, p, c);
    Rebuild(s, s', t, p, s'.pc[t]);
  }

  lemma ContendedStep(s: State, t: Tid, p: Pc)
    requires Inv(s) && p == PcOf(s, t) && p.ResumeAcquire? && s.word == p.seen && p.seen.running
    ensures var s' := AdvanceDriver(s, t, p, Choice(false, false, false)); Inv(s') && (OneJob(s) ==> OneJob(s'))
  {
    var s' := AdvanceDriver(s, t, p, Choice(false, false, false));
    CountsMove(s.pc, t, s'.pc[t]);
    CountTwo(s.pc, t, s.owner, Job);
    RunnerUndisturbed(s, s', t, s'.pc[t]);
  }

  lemma AcquiredStep(s: State, t: Tid, p: Pc)
    requires Inv(s) && p == PcOf(s, t) && p.ResumeAcquire? && s.word == p.seen && !p.seen.running
    ensures var s' := AdvanceDriver(s, t, p, Choice(false, false, false)); Inv(s') && (OneJob(s) ==> OneJob(s'))
  {
    var s' := AdvanceDriver(s, t, p, Choice(false, false, false));
    CountsMove(s.pc, t, s'.pc[t]);
    CountTwo(s.pc, t, t, Job);
  }

  lemma AcquireStep(s: State, t: Tid, c: Choice, p: Pc)
    requires Inv(s) && p == PcOf(s, t) && p.ResumeAcquire?
    ensures var s' := AdvanceDriver(s, t, p, c); Inv(s') && (OneJob(s) ==> OneJob(s'))
  {
    if s.word != p.seen || c.spurious {
      var s' := AdvanceDriver(s, t, p, c);
      Rebuild(s, s', t, p, s'.pc[t]);
    } else if p.seen.running {
      ContendedStep(s, t, p);
    } else {
      AcquiredStep(s, t, p);
    }
  }

  // Inv and OneJob after a step of the runner that leaves the word alone.
  lemma RunnerRebuild(s: State, s': State, t: Tid, p: Pc, q: Pc)
    requires Inv(s) && p == PcOf(s, t) && Runs(p) && Runs(q)
    requires s' == s.(pc := s.pc[t := q], inbox := s'.inbox, cached := s'.cached, live := s'.live, popped := s'.popped)
    requires s'.inbox.Closed? <==> s.inbox.Closed?
    requires s'.inbox.Blocked? ==> s'.cached == 0
    requires Count(s'.pc, Pending) == Count(s.pc, Pending) ==> RunnerOk(s', q)
    ensures Inv(s') && (OneJob(s) ==> OneJob(s'))
  {
    CountsMove(s.pc, t, q);
    CountTwo(s'.pc, t, t, Job);
  }

  // In RunAt phases.
  lemma EntryStep(s: State, t: Tid, c: Choice, p: Pc)
    requires Inv(s) && p == PcOf(s, t) && p.RunAt? && AtEntry(p.phase) && (p.phase == EntryEmpty ==> s.inbox.Open?)
    ensures var s' := AdvanceRunner(s, t, p, c); Inv(s') && (OneJob(s) ==> OneJob(s'))
  {
    var s' := AdvanceRunner(s, t, p, c);
    RunnerRebuild(s, s', t, p, s'.pc[t]);
  }

  lemma LoopStep(s: State, t: Tid, c: Choice, p: Pc)
    requires Inv(s) && p == PcOf(s, t) && p.RunAt? && InLoop(p.phase) && (p.phase == HeadPop ==> s.cached > 0 || s.inbox.Open?)
    ensures var s' := AdvanceRunner(s, t, p, c); Inv(s') && (OneJob(s) ==> OneJob(s'))
  {
    if p.phase in {HeadPop, Deliver} {
      PopStep(s, t, c, p);
    } else {
      HeadStep(s, t, c, p);
    }
  }

  lemma HeadStep(s: State, t: Tid, c: Choice, p: Pc)
    requires Inv(s) && p == PcOf(s, t) && p.RunAt? && InLoop(p.phase) && p.phase !in {HeadPop, Deliver}
    ensures var s' := AdvanceRunner(s, t, p, c); Inv(s') && (OneJob(s) ==> OneJob(s'))
  {
    var s' := AdvanceRunner(s, t, p, c);
    RunnerRebuild(s, s', t, p, s'.pc[t]);
  }

  lemma PopStep(s: State, t: Tid, c: Choice, p: Pc)
    requires Inv(s) && p == PcOf(s, t) && p.RunAt? && p.phase in {HeadPop, Deliver}
    requires p.phase == HeadPop ==> s.cached > 0 || s.inbox.Open?
    ensures var s' := AdvanceRunner(s, t, p, c); Inv(s') && (OneJob(s) ==> OneJob(s'))
  {
    var s' := AdvanceRunner(s, t, p, c);
    RunnerRebuild(s, s', t, p, s'.pc[t]);
  }

  lemma ParkStep(s: State, t: Tid, c: Choice, p: Pc)
    requires Inv(s) && p == PcOf(s, t) && p.RunAt? && !InLoop(p.phase) && !AtEntry(p.phase)
    requires p.phase == ParkRaceEmpty ==> s.inbox.Open?
    ensures var s' := AdvanceRunner(s, t, p, c); Inv(s') && (OneJob(s) ==> OneJob(s'))
  {
    var s' := AdvanceRunner(s, t, p, c);
    RunnerRebuild(s, s', t, p, s'.pc[t]);
  }

  lemma GuardStep(s: State, t: Tid, c: Choice, p: Pc)
    requires Inv(s) && p == PcOf(s, t) && (p.GuardLoad? || p.GuardCas?)
    ensures var s' := AdvanceGuard(s, t, p, c); Inv(s') && (OneJob(s) ==> OneJob(s'))
  {
    if p.GuardCas? && s.word == p.seen && !c.spurious {
      ReleasedStep(s, t, c, p);
    } else {
      var s' := AdvanceGuard(s, t, p, c);
      CountsMove(s.pc, t, s'.pc[t]);
      CountTwo(s.pc, t, t, Job);
    }
  }

  lemma ReleasedStep(s: State, t: Tid, c: Choice, p: Pc)
    requires Inv(s) && p == PcOf(s, t) && p.GuardCas? && s.word == p.seen && !c.spurious
    ensures var s' := AdvanceGuard(s, t, p, c); Inv(s') && (OneJob(s) ==> OneJob(s'))
  {
    var s' := AdvanceGuard(s, t, p, c);
    CountsMove(s.pc, t, s'.pc[t]);
    CountTwo(s.pc, t, t, Job);
  }

  // A destructor step that keeps every thread where it is and sets no flag but `destroying`.
  lemma DtorRebuild(s: State, s': State)
    requires Inv(s) && DtorInv(s') && PcInv(s') && s'.pc == s.pc && s'.owner == s.owner && s'.popped == s.popped
    requires s'.word.running == s.word.running && s'.word.senders == s.word.senders
    requires s'.inbox.Blocked? ==> s.inbox.Blocked? && s'.cached == s.cached
    requires s'.live == s.live && s'.queued == s.queued
    requires s' == s.(dtor := s'.dtor) || s'.word.destroying
    requires s.word.running ==> s'.word.scheduled == s.word.scheduled
    requires s.cached == 0 ==> s'.cached == 0
    requires s'.word.destroying || Waiting(s') >= Waiting(s)
    ensures Inv(s') && (OneJob(s) ==> OneJob(s'))
  {
  }

  lemma DtorStep(s: State, c: Choice)
    requires Inv(s) && !s.dtor.Gone? && (s.dtor.Terminal? ==> !s.dtor.seen.running && s.dtor.seen.senders == 0)
    ensures var s' := AdvanceDestructor(s, c); Inv(s') && (OneJob(s) ==> OneJob(s'))
  {
    if s.dtor.Publish? || s.dtor.Terminal? {
      DtorExchangeStep(s, c);
    } else {
      DtorRebuild(s, AdvanceDestructor(s, c));
    }
  }

  lemma DtorExchangeStep(s: State, c: Choice)
    requires Inv(s) && (s.dtor.Publish? || s.dtor.Terminal?)
    requires s.dtor.Terminal? ==> !s.dtor.seen.running && s.dtor.seen.senders == 0
    ensures var s' := AdvanceDestructor(s, c); Inv(s') && (OneJob(s) ==> OneJob(s'))
  {
    DtorRebuild(s, AdvanceDestructor(s, c));
  }

  /** Every enabled action keeps the invariant; every one but a poke keeps the single job node. */
  lemma StepInv(s: State, a: Action)
    requires Inv(s) && Enabled(s, a)
    ensures Inv(Apply(s, a))
    ensures OneJob(s) && !a.Poke? ==> OneJob(Apply(s, a))
  {
    match a
    case Send(t) => BeginStep(s, a, t, SendGate(s.word));
    case TakeJob(t, max) => BeginStep(s, a, t, ResumeStart(max));
    case Poke(t, max) => BeginStep(s, a, t, ResumeStart(max));
    case Advance(t, c) => AdvanceStep(s, t, c, PcOf(s, t));
    case Destroy(c) => DtorStep(s, c);
  }

  lemma BeginStep(s: State, a: Action, t: Tid, q: Pc)
    requires Inv(s) && Enabled(s, a) && PcOf(s, t).Idle? && PcOk(q) && !Runs(q)
    requires !Has(Registered, q) && !Has(Pending, q)
    requires Apply(s, a) == Moves(s.(queued := Apply(s, a).queued), t, q)
    requires !a.Poke? ==> Apply(s, a).queued + One(Has(Job, q)) == s.queued
    requires a.Poke? ==> Apply(s, a).queued == s.queued
    ensures Inv(Apply(s, a))
    ensures OneJob(s) && !a.Poke? ==> OneJob(Apply(s, a))
  {
    var s' := Apply(s, a);
    CountsMove(s.pc, t, q);
    RunnerUndisturbed(s, s', t, q);
  }

  lemma AdvanceStep(s: State, t: Tid, c: Choice, p: Pc)
    requires Inv(s) && p == PcOf(s, t) && Enabled(s, Advance(t, c))
    ensures var s' := Apply(s, Advance(t, c)); Inv(s') && (OneJob(s) ==> OneJob(s'))
  {
    match p
    case SendGate(_) => GateStep(s, t, c, p);
    case SendRegistered => PushStep(s, t, c, p);
    case SendPushed(_) => PushedStep(s, t, c, p);
    case SendLeave(_, _) => LeaveStep(s, t, c, p);
    case SendReturned(_) => PushedStep(s, t, c, p);
    case ResumeStart(_) => DriverStep(s, t, c, p);
    case ResumeAcquire(_, _) => AcquireStep(s, t, c, p);
    case ResumeReturned(_, _) => DriverStep(s, t, c, p);
    case RunAt(phase, _, _) =>
      if AtEntry(phase) { EntryStep(s, t, c, p); }
      else if InLoop(phase) { LoopStep(s, t, c, p); }
      else { ParkStep(s, t, c, p); }
    case GuardLoad(_, _, _, _) => GuardStep(s, t, c, p);
    case GuardCas(_, _, _, _, _, _) => GuardStep(s, t, c, p);
  }
}
