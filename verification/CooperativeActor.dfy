/**
 The actor itself: its packed state word, its mailbox and its behavior, with `enqueue_impl`,
 `resume`, `resume_impl`, `park` and the destructor as methods. Other threads may act before
 every atomic operation; each operation is one action of the protocol machine.
 */
module CooperativeActors {
  import opened Wrappers
  import opened StateWord
  import opened ActorMachine
  import opened ActorInvariants
  import opened ActorTheorems
  import opened ActorDestruction
  import opened ActorEvents
  import AwaitChains

  const K_MAX_CAS_ATTEMPTS: nat := 1000

  /** A call either returns or aborts the process, as the bounded compare-exchange loops do. */
  datatype Outcome<+T> = Returned(value: T) | Aborted

  datatype ResumeInfo = ResumeInfo(result: Verdict, messagesProcessed: nat)

  // ---------- compare-exchanges ----------

  /** A thread about to compare-exchange the state word, with what the loop body asserts. */
  predicate AtExchange(p: Pc)
  {
    || (p.SendGate? && !p.seen.destroying && p.seen.senders < MAX_SENDERS)
    || (p.SendLeave? && p.seen.senders > 0)
    || p.ResumeAcquire?
    || p.GuardCas?
  }

  predicate Claims(p: Pc)
    requires p.SendLeave?
  {
    p.unblocked && !p.seen.destroying && !p.seen.scheduled
  }

  /** The word a successful exchange writes. */
  function ExchangeWord(p: Pc): Word
    requires AtExchange(p)
  {
    match p
    case SendGate(seen) => seen.(senders := seen.senders + 1)
    case SendLeave(_, seen) => seen.(senders := seen.senders - 1, scheduled := seen.scheduled || Claims(p))
    case ResumeAcquire(_, seen) => if seen.running then seen.(scheduled := true) else seen.(running := true, scheduled := false)
    case GuardCas(_, _, _, keep, _, seen) => seen.(running := false, scheduled := keep || seen.scheduled)
  }

  /** Where the thread is after a successful exchange. */
  function ExchangeNext(p: Pc): Pc
    requires AtExchange(p)
  {
    match p
    case SendGate(_) => SendRegistered
    case SendLeave(_, seen) => SendReturned(Claims(p) && !seen.running)
    case ResumeAcquire(max, seen) => if seen.running then ResumeReturned(Awaiting, 0) else RunAt(EntryDestroying, max, 0)
    case GuardCas(_, verdict, handled, _, scheduledWhileRunning, _) =>
      ResumeReturned(if verdict.Awaiting? && scheduledWhileRunning then Resume else verdict, handled)
  }

  /** About to load the word that the first exchange of a loop starts from. */
  predicate AtLoad(p: Pc)
  {
    p.Idle? || p.SendPushed? || p.ResumeStart? || p.GuardLoad?
  }

  /** Where the thread is once it has loaded it. */
  function Loaded(p: Pc, word: Word): Pc
    requires AtLoad(p)
  {
    match p
    case Idle => SendGate(word)
    case SendPushed(unblocked) => SendLeave(unblocked, word)
    case ResumeStart(max) => ResumeAcquire(max, word)
    case GuardLoad(max, verdict, handled, keep) => GuardCas(max, verdict, handled, keep, word.scheduled, word)
  }

  /** Where it is after a failed one, which has loaded the word again. */
  function ExchangeRetry(p: Pc, word: Word): Pc
    requires AtExchange(p)
  {
    match p
    case SendGate(_) => SendGate(word)
    case SendLeave(unblocked, _) => SendLeave(unblocked, word)
    case ResumeAcquire(max, _) => ResumeAcquire(max, word)
    case GuardCas(max, verdict, handled, keep, scheduledWhileRunning, _) =>
      GuardCas(max, verdict, handled, keep, scheduledWhileRunning || word.scheduled, word)
  }

  lemma ExchangeStep(s: State, t: Tid, c: Choice, p: Pc)
    requires p == PcOf(s, t) && AtExchange(p)
    ensures Enabled(s, Advance(t, c))
    ensures var s' := Apply(s, Advance(t, c));
            && s'.inbox == s.inbox && s'.cached == s.cached && s'.live == s.live
            && (if s.word == p.seen && !c.spurious
                then s'.word == ExchangeWord(p) && PcOf(s', t) == ExchangeNext(p)
                else s'.word == s.word && PcOf(s', t) == ExchangeRetry(p, s.word))
  {
  }

  // ---------- the checks of a turn ----------

  /** The phase after a check that did not end the turn. */
  function Past(phase: Phase): Phase
    requires phase !in {EntryUnpark, EntryEmpty, HeadPop, Deliver, ParkBlock, ParkRaceEmpty}
  {
    match phase
    case EntryDestroying => EntryClosed
    case EntryClosed => EntryUnpark
    case EntryDrain => EntryBlocked
    case EntryBlocked => EntryEmpty
    case HeadDestroying => HeadClosed
    case HeadClosed => HeadBlocked
    case HeadBlocked => HeadDrain
    case HeadDrain => HeadPop
    case NothingPopped => ParkBlock
    case TailClosed => TailBusy
    case TailBusy => ParkBlock
    case ParkRaceBlocked => ParkRaceEmpty
  }

  /** The program counter after a check: the turn ends with `verdict` or goes on. */
  function Checked(p: Pc, ends: bool, verdict: Verdict): Pc
    requires p.RunAt? && p.phase !in {EntryUnpark, EntryEmpty, HeadPop, Deliver, ParkBlock, ParkRaceEmpty}
  {
    if ends then Finalize(p, verdict, verdict.Resume?) else p.(phase := Past(p.phase))
  }

  /** Comparing packed words is comparing their records. */
  lemma SameWord(s: Packed, t: Packed)
    ensures s == t <==> Unpack(s) == Unpack(t)
  {
    PackUnpack(Unpack(s), s);
    PackUnpack(Unpack(t), t);
  }

  // The packed words that the four loops write.
  lemma LeaveWord(s: Packed)
    requires SenderCount(s) > 0
    ensures var w := Unpack(s).(senders := SenderCount(s) - 1);
            && Unpack(SubSender(s)) == w
            && Unpack(SetScheduled(SubSender(s), true)) == w.(scheduled := true)
  {
    SubSenderExactly(s);
    FlagUpdates(SubSender(s), true);
  }

  lemma AcquireWord(s: Packed)
    ensures Unpack(SetScheduled(s, true)) == Unpack(s).(scheduled := true)
    ensures Unpack(SetScheduled(SetRunning(s, true), false)) == Unpack(s).(running := true, scheduled := false)
  {
    FlagUpdates(s, true);
    FlagUpdates(SetRunning(s, true), false);
  }

  lemma GuardWord(s: Packed, keep: bool)
    ensures var d := SetRunning(s, false);
            && IsScheduled(d) == IsScheduled(s)
            && Unpack(SetScheduled(d, keep)) == Unpack(s).(running := false, scheduled := keep)
  {
    FlagUpdates(s, false);
    FlagUpdates(SetRunning(s, false), keep);
  }

  /** A part of the turn either ends it with an answer for the guard or lets it go on. */
  datatype Stage = Ended(answer: (Verdict, nat, bool)) | Continues

  ghost predicate StageOk(stage: Stage, at: Pc, max: nat, handled: nat, next: nat)
  {
    match stage
    case Ended((verdict, count, keep)) => at == GuardLoad(max, verdict, count, keep) && count == handled
    case Continues => at == RunAt(LoopEntry(max, next), max, next)
  }

  class CooperativeActor {
    var state_: Packed
    var inbox_: Inbox
    var cached_: nat
    const current_behavior_: AwaitChains.Coroutine
    ghost var live: bool       // the machine's view of current_behavior_
    ghost var pc: map<Tid, Pc>
    ghost var queued: nat
    ghost var dtor: Dtor
    ghost var owner: Tid
    ghost var popped: nat
    ghost var trace: seq<Action>

    ghost function Abs(): State
      reads this
    {
      State(Unpack(state_), inbox_, cached_, live, pc, queued, dtor, owner, popped)
    }

    /**
     The actor is in a state that a run of the machine reaches, namely the run `trace`; its behavior is
     at rest, and live in the machine exactly when it is suspended at a co_await.
     */
    ghost predicate Valid()
      reads this, current_behavior_, current_behavior_.Repr
    {
      && IsRun(Init(), trace) && Reached(trace) == Abs()
      && Rests() && live == current_behavior_.IsBusy()
    }

    ghost predicate Rests()
      reads this, current_behavior_, current_behavior_.Repr
    {
      this !in current_behavior_.Repr && current_behavior_.Valid() && !current_behavior_.Running()
    }

    /** The run has gone on, and what the behavior has come to own since is new. */
    twostate predicate Later()
      reads this, current_behavior_
    {
      old(trace) <= trace && fresh(current_behavior_.Repr - old(current_behavior_.Repr))
    }

    /** How often the event has happened so far. */
    ghost function Counted(e: Event): nat
      requires IsRun(Init(), trace)
      reads this
    {
      Times(Init(), trace, e)
    }

    /** How often the party had to try again so far. */
    ghost function Tried(who: Party): nat
      requires IsRun(Init(), trace)
      reads this
    {
      Counted(Retry(who))
    }

    /** What this thread has put into the mailbox, woken and taken out since. */
    twostate predicate Did(me: Tid, accepts: nat, wakes: nat, pops: nat)
      requires IsRun(Init(), trace) && old(IsRun(Init(), trace))
      reads this
    {
      && Counted(Accept(me)) == old(Counted(Accept(me))) + accepts
      && Counted(Wake(me)) == old(Counted(Wake(me))) + wakes
      && Counted(Pop(me)) == old(Counted(Pop(me))) + pops
    }

    /** Nobody has driven the behavior since; its awaited state may have become ready. */
    twostate predicate Undriven()
      reads current_behavior_
    {
      && current_behavior_.root == old(current_behavior_.root) && current_behavior_.finished == old(current_behavior_.finished)
      && current_behavior_.chain == old(current_behavior_.chain) && current_behavior_.leaf == old(current_behavior_.leaf)
    }

    /** A sender stands before an exchange at the asserted bound of the count. */
    ghost predicate AtBound(me: Tid)
      reads this
    {
      At(me).SendGate? && !At(me).seen.destroying && At(me).seen.senders >= MAX_SENDERS
    }

    lemma DyingStays(before: seq<Action>)
      requires Valid() && IsRun(Init(), before) && before <= trace
      ensures Reached(before).word.destroying ==> IsDestroying(state_)
    {
      Suffix(Init(), before, trace);
      ReachedInv(before);
      if Reached(before).word.destroying {
        DestroyingRun(Reached(before), trace[|before|..], 0);
      }
    }

    lemma TriedGrows(before: seq<Action>, who: Party)
      requires IsRun(Init(), trace) && IsRun(Init(), before) && before <= trace
      ensures Times(Init(), before, Retry(who)) <= Tried(who)
    {
      TimesGrow(Init(), before, trace, Retry(who));
    }

    ghost function At(me: Tid): Pc
      reads this
    {
      PcOf(Abs(), me)
    }

    constructor ()
      ensures Valid() && Abs() == Init() && trace == [] && fresh(current_behavior_.Repr)
    {
      state_ := MakeState(false, false, false);
      inbox_ := Open(0);
      cached_ := 0;
      current_behavior_ := new AwaitChains.Coroutine();
      pc, queued, dtor, owner, popped, live, trace := map[], 0, Alive, 0, 0, false, [];
      new;
      inbox_ := Blocked;   // mailbox().try_block()
      RebuiltWords(state_, false, false, false);
    }

    /**
     Any number of actions of other threads, which are not this thread's, and which leave the behavior
     to whoever runs. Callers know only this contract; the empty interleaving is the one the body shows.
     */
    method Interfere(ghost me: Tid)
      requires Valid()
      modifies this, current_behavior_.Repr
      ensures Valid() && At(me) == old(At(me)) && Later()
      ensures Tried(Thread(me)) == old(Tried(Thread(me))) && Did(me, 0, 0, 0)
      ensures Runs(At(me)) ==> Undriven()
    {
    }

    /** Account for one atomic operation: the fields already hold what the action leaves. */
    ghost method Step(before: State, a: Action)
      requires IsRun(Init(), trace) && Reached(trace) == before && Enabled(before, a)
      requires var after := Apply(before, a);
               && Unpack(state_) == after.word && inbox_ == after.inbox
               && cached_ == after.cached && Rests() && current_behavior_.IsBusy() == after.live
      modifies this`pc, this`queued, this`dtor, this`owner, this`popped, this`live, this`trace
      ensures Valid() && Abs() == Apply(before, a) && trace == old(trace) + [a]
      ensures forall e :: Counted(e) == old(Counted(e)) + One(Happens(before, a, e))
    {
      Append(Init(), trace, a);
      forall e
        ensures Times(Init(), trace + [a], e) == Times(Init(), trace, e) + One(Happens(before, a, e))
      {
        TimesAppend(Init(), trace, a, e);
      }
      var after := Apply(before, a);
      pc, queued, dtor, owner, popped, live := after.pc, after.queued, after.dtor, after.owner, after.popped, after.live;
      trace := trace + [a];
    }

    /** `state_.load()` at the head of a loop; for an idle thread, of enqueue_impl. */
    method LoadWord(ghost me: Tid) returns (current: Packed)
      requires Valid() && AtLoad(At(me))
      modifies this, current_behavior_.Repr
      ensures Valid() && Later() && Did(me, 0, 0, 0) && At(me) == Loaded(old(At(me)), Unpack(current))
      ensures Tried(Thread(me)) == old(Tried(Thread(me)))
    {
      Interfere(me);
      current := state_;
      Step(Abs(), if At(me).Idle? then Send(me) else Advance(me, PLAIN));
    }

    /** One weak compare-exchange on the state word; on failure the word is loaded again. */
    method CompareExchange(ghost me: Tid, current: Packed, desired: Packed) returns (ok: bool, seen: Packed)
      requires Valid() && AtExchange(At(me)) && At(me).seen == Unpack(current) && Unpack(desired) == ExchangeWord(At(me))
      modifies this, current_behavior_.Repr
      ensures Valid() && Later() && Did(me, 0, 0, 0)
      ensures At(me) == if ok then ExchangeNext(old(At(me))) else ExchangeRetry(old(At(me)), Unpack(seen))
      ensures Tried(Thread(me)) == old(Tried(Thread(me))) + One(!ok)
    {
      Interfere(me);
      ok, seen := ExchangeNow(me, current, desired);
    }

    method ExchangeNow(ghost me: Tid, current: Packed, desired: Packed) returns (ok: bool, seen: Packed)
      requires Valid() && AtExchange(At(me)) && At(me).seen == Unpack(current) && Unpack(desired) == ExchangeWord(At(me))
      modifies this`state_, this`pc, this`queued, this`dtor, this`owner, this`popped, this`live, this`trace
      ensures Valid() && old(trace) <= trace && Did(me, 0, 0, 0)
      ensures At(me) == if ok then ExchangeNext(old(At(me))) else ExchangeRetry(old(At(me)), Unpack(seen))
      ensures Tried(Thread(me)) == old(Tried(Thread(me))) + One(!ok)
    {
      ghost var s := Abs();
      SameWord(state_, current);
      var spurious: bool := *;
      ghost var c := PLAIN.(spurious := spurious);
      ExchangeStep(s, me, c, At(me));
      seen := state_;
      ok := state_ == current && !spurious;
      if ok {
        state_ := desired;
      }
      Step(s, Advance(me, c));
    }

    // ---------- enqueue_impl ----------

    method EnqueueImpl(ghost me: Tid) returns (r: Outcome<(bool, EnqueueResult)>)
      requires Valid() && At(me).Idle?
      modifies this, current_behavior_.Repr
      ensures Valid() && Later()
      ensures r.Returned? ==> At(me) == SendReturned(r.value.0)
      ensures r.Returned? && r.value.0 ==> r.value.1 == UnblockedReader
      ensures r.Returned? ==> Did(me, One(r.value.1 != QueueClosed), One(r.value.1 == UnblockedReader), 0)
      ensures r.Aborted? ==> AtBound(me) || Tried(Thread(me)) >= old(Tried(Thread(me))) + K_MAX_CAS_ATTEMPTS - 1
    {
      ghost var begun := trace;
      var registered := Register(me);
      if registered.Aborted? { return Aborted; }
      if !registered.value { return Returned((false, QueueClosed)); }

      TriedGrows(begun, Thread(me));
      r := PushAndLeave(me);
    }

    /** What a registered sender does. */
    method PushAndLeave(ghost me: Tid) returns (r: Outcome<(bool, EnqueueResult)>)
      requires Valid() && At(me) == SendRegistered
      modifies this, current_behavior_.Repr
      ensures Valid() && Later()
      ensures r.Returned? ==> At(me) == SendReturned(r.value.0) && (r.value.0 ==> r.value.1 == UnblockedReader)
      ensures r.Returned? ==> Did(me, One(r.value.1 != QueueClosed), One(r.value.1 == UnblockedReader), 0)
      ensures r.Aborted? ==> Tried(Thread(me)) >= old(Tried(Thread(me))) + K_MAX_CAS_ATTEMPTS - 1
    {
      ghost var begun := trace;
      var result := PushBack(me);
      TriedGrows(begun, Thread(me));
      var left := LeaveAndMaybeSchedule(me, result == UnblockedReader);
      if left.Aborted? { return Aborted; }
      return Returned((left.value, result));
    }

    /** `mailbox().push_back`, one operation of the inbox. */
    method PushBack(ghost me: Tid) returns (result: EnqueueResult)
      requires Valid() && At(me) == SendRegistered
      modifies this, current_behavior_.Repr
      ensures Valid() && Later() && At(me) == SendPushed(result == UnblockedReader)
      ensures Did(me, One(result != QueueClosed), One(result == UnblockedReader), 0)
    {
      Interfere(me);
      result := PushNow(me);
    }

    method PushNow(ghost me: Tid) returns (result: EnqueueResult)
      requires Valid() && At(me) == SendRegistered
      modifies this`inbox_, this`pc, this`queued, this`dtor, this`owner, this`popped, this`live, this`trace
      ensures Valid() && old(trace) <= trace && At(me) == SendPushed(result == UnblockedReader)
      ensures Did(me, One(result != QueueClosed), One(result == UnblockedReader), 0)
    {
      ghost var s := Abs();
      result := match inbox_ case Closed => QueueClosed case Blocked => UnblockedReader case Open(_) => Success;
      if inbox_ != Closed {
        inbox_ := Open(if inbox_.Blocked? then 1 else inbox_.count + 1);
      }
      Step(s, Advance(me, PLAIN));
    }

    /** Read `destroying` and register in one exchange. */
    method Register(ghost me: Tid) returns (r: Outcome<bool>)
      requires Valid() && At(me).Idle?
      modifies this, current_behavior_.Repr
      ensures Valid() && Later() && Did(me, 0, 0, 0)
      ensures r.Returned? ==> At(me) == if r.value then SendRegistered else SendReturned(false)
      ensures r.Aborted? ==> AtBound(me) || Tried(Thread(me)) == old(Tried(Thread(me))) + K_MAX_CAS_ATTEMPTS - 1
    {
      var current := LoadWord(me);
      for attempts := 1 to K_MAX_CAS_ATTEMPTS
        invariant Valid() && Later() && Did(me, 0, 0, 0) && At(me) == SendGate(Unpack(current))
        invariant Tried(Thread(me)) == old(Tried(Thread(me))) + attempts - 1
      {
        if IsDestroying(current) {
          LeaveUnregistered(me, current);
          return Returned(false);
        }
        if SenderCount(current) >= MAX_SENDERS { return Aborted; }   // the assertion
        AddSenderExactly(current);
        var ok;
        ok, current := CompareExchange(me, current, AddSender(current));
        if ok { return Returned(true); }
      }
      return Aborted;
    }

    method LeaveUnregistered(ghost me: Tid, ghost current: Packed)
      requires Valid() && At(me) == SendGate(Unpack(current)) && IsDestroying(current)
      modifies this, current_behavior_.Repr
      ensures Valid() && Later() && Did(me, 0, 0, 0) && At(me) == SendReturned(false)
    {
      Step(Abs(), Advance(me, PLAIN));
    }

    /** Deregister and, if the push unblocked the mailbox, claim `scheduled` in the same exchange. */
    method LeaveAndMaybeSchedule(ghost me: Tid, unblocked: bool) returns (r: Outcome<bool>)
      requires Valid() && At(me) == SendPushed(unblocked)
      modifies this, current_behavior_.Repr
      ensures Valid() && Later() && Did(me, 0, 0, 0)
      ensures r.Returned? ==> At(me) == SendReturned(r.value) && (r.value ==> unblocked)
      ensures r.Aborted? ==> Tried(Thread(me)) == old(Tried(Thread(me))) + K_MAX_CAS_ATTEMPTS - 1
    {
      var current := LoadWord(me);
      r := LeaveFrom(me, unblocked, current);
    }

    method LeaveFrom(ghost me: Tid, unblocked: bool, loaded: Packed) returns (r: Outcome<bool>)
      requires Valid() && At(me) == SendLeave(unblocked, Unpack(loaded))
      modifies this, current_behavior_.Repr
      ensures Valid() && Later() && Did(me, 0, 0, 0)
      ensures r.Returned? ==> At(me) == SendReturned(r.value) && (r.value ==> unblocked)
      ensures r.Aborted? ==> Tried(Thread(me)) == old(Tried(Thread(me))) + K_MAX_CAS_ATTEMPTS - 1
    {
      var current := loaded;
      for attempts := 1 to K_MAX_CAS_ATTEMPTS
        invariant Valid() && Later() && Did(me, 0, 0, 0) && At(me) == SendLeave(unblocked, Unpack(current))
        invariant Tried(Thread(me)) == old(Tried(Thread(me))) + attempts - 1
      {
        var ok, owesEnqueue;
        ok, current, owesEnqueue := TryLeave(me, unblocked, current);
        if ok { return Returned(owesEnqueue); }
      }
      return Aborted;
    }

    /** One exchange of the loop; the count it read is positive, as the source asserts. */
    method TryLeave(ghost me: Tid, unblocked: bool, current: Packed) returns (ok: bool, seen: Packed, owesEnqueue: bool)
      requires Valid() && At(me) == SendLeave(unblocked, Unpack(current))
      modifies this, current_behavior_.Repr
      ensures Valid() && Later() && Did(me, 0, 0, 0) && SenderCount(current) > 0
      ensures At(me) == if ok then SendReturned(owesEnqueue) else SendLeave(unblocked, Unpack(seen))
      ensures owesEnqueue ==> unblocked
      ensures Tried(Thread(me)) == old(Tried(Thread(me))) + One(!ok)
    {
      ReachedInv(trace);
      LeaveWord(current);
      var desired := SubSender(current);
      owesEnqueue := false;
      if unblocked && !IsDestroying(current) && !IsScheduled(current) {
        desired := SetScheduled(desired, true);
        owesEnqueue := !IsRunning(current);
      }
      ok, seen := CompareExchange(me, current, desired);
    }

    // ---------- resume ----------

    /**
     One turn. The verdict is what the machine's driver returns with; a contended call is told
     `awaiting` and has processed nothing.
     */
    method Resume(ghost me: Tid, maxThroughput: nat) returns (r: Outcome<ResumeInfo>)
      requires Valid() && At(me) == ResumeStart(maxThroughput) && maxThroughput > 0
      modifies this, current_behavior_.Repr
      ensures Valid() && Later()
      ensures r.Returned? ==> Did(me, 0, 0, r.value.messagesProcessed)
      ensures r.Returned? ==> At(me) == ResumeReturned(r.value.result, r.value.messagesProcessed)
      ensures r.Returned? ==> r.value.messagesProcessed <= maxThroughput
      ensures r.Returned? && old(IsDestroying(state_)) ==> r.value.messagesProcessed == 0 && !r.value.result.Resume?
      ensures r.Aborted? ==> dtor.Gone? || Tried(Thread(me)) >= old(Tried(Thread(me))) + K_MAX_CAS_ATTEMPTS - 1
    {
      ghost var begun := trace;
      var acquired := TryAcquireRunning(me, maxThroughput);
      if acquired.Aborted? { return Aborted; }
      if !acquired.value { return Returned(ResumeInfo(Awaiting, 0)); }
      DyingStays(begun);
      TriedGrows(begun, Thread(me));
      r := RunTurn(me, maxThroughput);
    }

    /** The turn of a driver that has got `running`, down to the guard's last exchange. */
    method RunTurn(ghost me: Tid, maxThroughput: nat) returns (r: Outcome<ResumeInfo>)
      requires Valid() && At(me) == RunAt(EntryDestroying, maxThroughput, 0) && maxThroughput > 0
      modifies this, current_behavior_.Repr
      ensures Valid() && Later()
      ensures r.Returned? ==> Did(me, 0, 0, r.value.messagesProcessed)
      ensures r.Returned? ==> At(me) == ResumeReturned(r.value.result, r.value.messagesProcessed)
      ensures r.Returned? ==> r.value.messagesProcessed <= maxThroughput
      ensures r.Returned? && old(IsDestroying(state_)) ==> r.value == ResumeInfo(Done, 0)
      ensures r.Aborted? ==> dtor.Gone? || Tried(Thread(me)) >= old(Tried(Thread(me))) + K_MAX_CAS_ATTEMPTS - 1
    {
      ghost var begun := trace;
      var turn := ResumeImpl(me, maxThroughput);
      if turn.Aborted? { return Aborted; }
      var (verdict, handled, keep) := turn.value;
      TriedGrows(begun, Thread(me));
      var released := ReleaseRunning(me, maxThroughput, verdict, handled, keep);
      if released.Aborted? { return Aborted; }
      if verdict.Awaiting? && released.value {
        verdict := Verdict.Resume;
      }
      return Returned(ResumeInfo(verdict, handled));
    }

    method TryAcquireRunning(ghost me: Tid, max: nat) returns (r: Outcome<bool>)
      requires Valid() && At(me) == ResumeStart(max)
      modifies this, current_behavior_.Repr
      ensures Valid() && Later() && Did(me, 0, 0, 0)
      ensures r.Returned? ==> At(me) == if r.value then RunAt(EntryDestroying, max, 0) else ResumeReturned(Awaiting, 0)
      ensures r.Aborted? ==> Tried(Thread(me)) == old(Tried(Thread(me))) + K_MAX_CAS_ATTEMPTS - 1
    {
      var current := LoadWord(me);
      for attempts := 1 to K_MAX_CAS_ATTEMPTS
        invariant Valid() && Later() && Did(me, 0, 0, 0) && At(me) == ResumeAcquire(max, Unpack(current))
        invariant Tried(Thread(me)) == old(Tried(Thread(me))) + attempts - 1
      {
        var ok, contended;
        ok, current, contended := TryMark(me, max, current);
        if ok { return Returned(!contended); }
      }
      return Aborted;
    }

    /** One exchange of the loop: take `running`, or leave `scheduled` for whoever has it. */
    method TryMark(ghost me: Tid, ghost max: nat, current: Packed) returns (ok: bool, seen: Packed, contended: bool)
      requires Valid() && At(me) == ResumeAcquire(max, Unpack(current))
      modifies this, current_behavior_.Repr
      ensures Valid() && Later() && Did(me, 0, 0, 0) && contended == IsRunning(current)
      ensures At(me) == if !ok then ResumeAcquire(max, Unpack(seen))
                        else if contended then ResumeReturned(Awaiting, 0) else RunAt(EntryDestroying, max, 0)
      ensures Tried(Thread(me)) == old(Tried(Thread(me))) + One(!ok)
    {
      AcquireWord(current);
      contended := IsRunning(current);
      var desired := if contended then SetScheduled(current, true) else SetScheduled(SetRunning(current, true), false);
      ok, seen := CompareExchange(me, current, desired);
    }

    /** The destructor of resume_guard: drop `running`, keep or inherit `scheduled`. */
    method ReleaseRunning(ghost me: Tid, ghost max: nat, ghost verdict: Verdict, ghost handled: nat, keep: bool)
      returns (r: Outcome<bool>)
      requires Valid() && At(me) == GuardLoad(max, verdict, handled, keep)
      modifies this, current_behavior_.Repr
      ensures Valid() && Later() && Did(me, 0, 0, 0)
      ensures r.Returned? ==>
                At(me) == ResumeReturned(if verdict.Awaiting? && r.value then Verdict.Resume else verdict, handled)
      ensures r.Aborted? ==> Tried(Thread(me)) == old(Tried(Thread(me))) + K_MAX_CAS_ATTEMPTS - 1
    {
      var current := LoadWord(me);
      r := ReleaseFrom(me, max, verdict, handled, keep, current);
    }

    method ReleaseFrom(ghost me: Tid, ghost max: nat, ghost verdict: Verdict, ghost handled: nat, keep: bool, loaded: Packed)
      returns (r: Outcome<bool>)
      requires Valid() && At(me) == GuardCas(max, verdict, handled, keep, IsScheduled(loaded), Unpack(loaded))
      modifies this, current_behavior_.Repr
      ensures Valid() && Later() && Did(me, 0, 0, 0)
      ensures r.Returned? ==>
                At(me) == ResumeReturned(if verdict.Awaiting? && r.value then Verdict.Resume else verdict, handled)
      ensures r.Aborted? ==> Tried(Thread(me)) == old(Tried(Thread(me))) + K_MAX_CAS_ATTEMPTS - 1
    {
      var current, scheduledWhileRunning := loaded, IsScheduled(loaded);
      for attempts := 1 to K_MAX_CAS_ATTEMPTS
        invariant Valid() && Later() && Did(me, 0, 0, 0)
        invariant At(me) == GuardCas(max, verdict, handled, keep, scheduledWhileRunning, Unpack(current))
        invariant Tried(Thread(me)) == old(Tried(Thread(me))) + attempts - 1
      {
        var ok;
        ok, current := TryRelease(me, keep, current);
        if ok { return Returned(scheduledWhileRunning); }
        scheduledWhileRunning := scheduledWhileRunning || IsScheduled(current);
      }
      return Aborted;
    }

    /** One exchange of the guard's loop. */
    method TryRelease(ghost me: Tid, keep: bool, current: Packed) returns (ok: bool, seen: Packed)
      requires Valid() && At(me).GuardCas? && At(me).keep == keep && At(me).seen == Unpack(current)
      modifies this, current_behavior_.Repr
      ensures Valid() && Later() && Did(me, 0, 0, 0)
      ensures At(me) == if ok then ExchangeNext(old(At(me))) else ExchangeRetry(old(At(me)), Unpack(seen))
      ensures Tried(Thread(me)) == old(Tried(Thread(me))) + One(!ok)
    {
      GuardWord(current, keep || IsScheduled(current));
      var desired := SetRunning(current, false);
      desired := SetScheduled(desired, keep || IsScheduled(desired));
      ok, seen := CompareExchange(me, current, desired);
    }

    // ---------- the steps of a turn ----------

    /** `is_destroying(state_.load())`. */
    method LoadsDestroying(ghost me: Tid) returns (b: bool)
      requires Valid() && At(me).RunAt? && At(me).phase in {EntryDestroying, HeadDestroying}
      modifies this, current_behavior_.Repr
      ensures Valid() && Later() && Did(me, 0, 0, 0) && At(me) == Checked(old(At(me)), b, Done)
      ensures old(IsDestroying(state_)) ==> b
    {
      ghost var begun := trace;
      Interfere(me);
      DyingStays(begun);
      b := IsDestroying(state_);
      Step(Abs(), Advance(me, PLAIN));
    }

    /** `mailbox().closed()`. */
    method LoadsClosed(ghost me: Tid) returns (b: bool)
      requires Valid() && At(me).RunAt? && At(me).phase in {EntryClosed, HeadClosed, NothingPopped, TailClosed}
      modifies this, current_behavior_.Repr
      ensures Valid() && Later() && Did(me, 0, 0, 0) && At(me) == Checked(old(At(me)), b, Done)
    {
      Interfere(me);
      b := inbox_.Closed?;
      Step(Abs(), Advance(me, PLAIN));
    }

    /** The two checks at the head of the turn and of every iteration. */
    method DyingOrClosed(ghost me: Tid) returns (b: bool)
      requires Valid() && At(me).RunAt? && At(me).phase in {EntryDestroying, HeadDestroying}
      modifies this, current_behavior_.Repr
      ensures Valid() && Later() && Did(me, 0, 0, 0)
      ensures old(IsDestroying(state_)) ==> b
      ensures var p := old(At(me));
              At(me) == if b then Finalize(p, Done, false) else p.(phase := Past(Past(p.phase)))
    {
      b := LoadsDestroying(me);
      if !b {
        b := LoadsClosed(me);
      }
    }

    /** `mailbox().blocked()`. */
    method LoadsBlocked(ghost me: Tid) returns (b: bool)
      requires Valid() && At(me).RunAt? && At(me).phase in {EntryBlocked, HeadBlocked, ParkRaceBlocked}
      modifies this, current_behavior_.Repr
      ensures Valid() && Later() && Did(me, 0, 0, 0) && At(me) == Checked(old(At(me)), b, Awaiting)
    {
      Interfere(me);
      b := inbox_.Blocked?;
      Step(Abs(), Advance(me, PLAIN));
    }

    /**
     Resume the awaited continuation if its future is released; what user code then does is free. A behavior
     still suspended where it was is not ready, and one that is not has let the awaited future go.
     */
    method DrainBehavior(ghost me: Tid) returns (busy: bool)
      requires Valid() && At(me).RunAt? && At(me).phase in {EntryDrain, HeadDrain}
      modifies this, current_behavior_.Repr
      ensures Valid() && Later() && Did(me, 0, 0, 0) && At(me) == Checked(old(At(me)), busy, Verdict.Resume)
      ensures busy == current_behavior_.IsBusy()
      ensures var leaf, was := current_behavior_.leaf, old(current_behavior_.leaf);
              && (busy <==> leaf != null)
              && (was != null && leaf == was ==> !leaf.ready)
              && (was != null && leaf != was ==> was.futureReleased)
              && (was == null ==> leaf == null)
    {
      Interfere(me);
      ghost var s := Abs();
      current_behavior_.RootNamesLeaf();
      AwaitChains.BusyIffNotDone(current_behavior_);
      ghost var ready := current_behavior_.IsAwaitedReady();
      busy := DrainNow();
      Step(s, Advance(me, Choice(false, ready, busy)));
    }

    method DrainNow() returns (busy: bool)
      requires Rests()
      modifies current_behavior_.Repr
      ensures Rests() && fresh(current_behavior_.Repr - old(current_behavior_.Repr))
      ensures busy == current_behavior_.IsBusy() && (busy <==> !current_behavior_.Done())
      ensures old(current_behavior_.Done()) ==> current_behavior_.Done()
      ensures !old(current_behavior_.IsAwaitedReady()) ==> busy == old(current_behavior_.IsBusy())
      ensures var leaf, was := current_behavior_.leaf, old(current_behavior_.leaf);
              && (busy <==> leaf != null)
              && (was != null && leaf == was ==> !leaf.ready)
              && (was != null && leaf != was ==> was.futureReleased)
              && (was == null ==> leaf == null)
    {
      current_behavior_.RootNamesLeaf();
      AwaitChains.BusyIffNotDone(current_behavior_);
      var fuel: nat := *;
      var claimed;
      busy, claimed := current_behavior_.Drain(fuel);
      current_behavior_.RootNamesLeaf();
    }

    method UnparkInbox(ghost me: Tid)
      requires Valid() && At(me).RunAt? && At(me).phase == EntryUnpark
      modifies this, current_behavior_.Repr
      ensures Valid() && Later() && Did(me, 0, 0, 0) && At(me) == old(At(me)).(phase := EntryDrain)
    {
      Interfere(me);
      ghost var s := Abs();
      if inbox_.Blocked? {
        inbox_ := Open(0);
      }
      Step(s, Advance(me, PLAIN));
    }

    /** `mailbox().empty()`, which first moves the inbox into the cached lists. */
    method MailboxEmpty(ghost me: Tid) returns (r: Outcome<bool>)
      requires Valid() && At(me).RunAt? && At(me).phase in {EntryEmpty, ParkRaceEmpty}
      modifies this, current_behavior_.Repr
      ensures Valid() && Later() && Did(me, 0, 0, 0)
      ensures r.Aborted? ==> dtor.Gone?
      ensures var p := old(At(me));
              r.Returned? ==>
                At(me) == if p.phase == EntryEmpty
                          then p.(phase := if r.value then ParkBlock else LoopEntry(p.max, p.handled))
                          else Finalize(p, if r.value then Awaiting else Verdict.Resume, !r.value)
    {
      Interfere(me);
      ReachedInv(trace);
      if inbox_.Closed? { return Aborted; }   // the assertion of take_head
      var empty := FetchMore(me);
      return Returned(empty);
    }

    /** `fetch_more`, and whether there is anything cached then. */
    method FetchMore(ghost me: Tid) returns (empty: bool)
      requires Valid() && At(me).RunAt? && At(me).phase in {EntryEmpty, ParkRaceEmpty} && inbox_.Open?
      modifies this`inbox_, this`cached_, this`pc, this`queued, this`dtor, this`owner, this`popped, this`live, this`trace
      ensures Valid() && old(trace) <= trace && Did(me, 0, 0, 0)
      ensures var p := old(At(me));
              At(me) == if p.phase == EntryEmpty
                        then p.(phase := if empty then ParkBlock else LoopEntry(p.max, p.handled))
                        else Finalize(p, if empty then Awaiting else Verdict.Resume, !empty)
    {
      ghost var s := Abs();
      cached_, inbox_ := cached_ + inbox_.count, Open(0);
      Step(s, Advance(me, PLAIN));
      empty := cached_ == 0;
    }

    method PopFront(ghost me: Tid) returns (r: Outcome<bool>)
      requires Valid() && At(me).RunAt? && At(me).phase == HeadPop
      modifies this, current_behavior_.Repr
      ensures Valid() && Later()
      ensures r.Returned? ==> Did(me, 0, 0, One(r.value))
      ensures r.Aborted? ==> dtor.Gone?
      ensures r.Returned? ==> At(me) == old(At(me)).(phase := if r.value then Deliver else NothingPopped)
    {
      Interfere(me);
      ReachedInv(trace);
      if cached_ == 0 && inbox_.Closed? { return Aborted; }   // the assertion of take_head
      var got := PopNow(me);
      return Returned(got);
    }

    method PopNow(ghost me: Tid) returns (got: bool)
      requires Valid() && At(me).RunAt? && At(me).phase == HeadPop && (cached_ > 0 || inbox_.Open?)
      modifies this`inbox_, this`cached_, this`pc, this`queued, this`dtor, this`owner, this`popped, this`live, this`trace
      ensures Valid() && old(trace) <= trace && Did(me, 0, 0, One(got))
      ensures At(me) == old(At(me)).(phase := if got then Deliver else NothingPopped)
    {
      ghost var s := Abs();
      if cached_ == 0 {
        cached_, inbox_ := cached_ + inbox_.count, Open(0);
      }
      got := cached_ > 0;
      if got {
        cached_ := cached_ - 1;
      }
      Step(s, Advance(me, PLAIN));
    }

    /** `current_behavior_ = self()->behavior(msg)`, unless the actor is being destroyed. */
    method DeliverMessage(ghost me: Tid)
      requires Valid() && At(me).RunAt? && At(me).phase == Deliver
      modifies this, current_behavior_.Repr
      ensures Valid() && Later() && Did(me, 0, 0, 0)
      ensures old(current_behavior_.Done()) && (IsDestroying(state_) || NewBehavior())
      ensures var p := old(At(me));
              At(me) == RunAt(LoopEntry(p.max, p.handled + 1), p.max, p.handled + 1)
    {
      InterfereAtRest(me);
      DeliverNow(me);
    }

    method DeliverNow(ghost me: Tid)
      requires Valid() && At(me).RunAt? && At(me).phase == Deliver && current_behavior_.Done()
      modifies current_behavior_.Repr, this`pc, this`queued, this`dtor, this`owner, this`popped, this`live, this`trace
      ensures Valid() && Later() && Did(me, 0, 0, 0) && (IsDestroying(state_) || NewBehavior())
      ensures var p := old(At(me));
              At(me) == RunAt(LoopEntry(p.max, p.handled + 1), p.max, p.handled + 1)
    {
      ghost var s := Abs();
      AwaitChains.BusyIffNotDone(current_behavior_);
      var suspends := RunUnlessDying();
      Step(s, Advance(me, PLAIN.(suspends := suspends)));
    }

    twostate predicate NewBehavior()
      reads current_behavior_
    {
      current_behavior_.root != null && fresh(current_behavior_.root)
    }

    method RunUnlessDying() returns (suspends: bool)
      requires Rests() && current_behavior_.Done() && !current_behavior_.IsBusy()
      modifies current_behavior_.Repr
      ensures Rests() && suspends == current_behavior_.IsBusy()
      ensures fresh(current_behavior_.Repr - old(current_behavior_.Repr))
      ensures if IsDestroying(state_) then !suspends else NewBehavior()
    {
      suspends := false;
      if !IsDestroying(state_) {
        suspends := RunBehavior();
      }
    }

    /** Replace the finished behavior and run the new one until it suspends or ends. */
    method RunBehavior() returns (suspends: bool)
      requires Rests() && current_behavior_.Done()
      modifies current_behavior_.Repr
      ensures Rests() && suspends == current_behavior_.IsBusy() && NewBehavior()
      ensures fresh(current_behavior_.Repr - old(current_behavior_.Repr))
    {
      var fuel: nat := *;
      current_behavior_.Deliver(fuel);
      suspends := current_behavior_.IsBusy();
    }

    /** In a turn that is about to park or to deliver, the behavior is done: by the chain, not by the flag alone. */
    lemma LiveIsLeftAlone(t: Tid)
      requires Valid() && At(t).RunAt? && (At(t).phase == ParkBlock || At(t).phase == Deliver)
      ensures current_behavior_.Done()
    {
      ReachedInv(trace);
      AwaitChains.BusyIffNotDone(current_behavior_);
    }

    /** Other threads act before the runner parks or delivers; the behavior is done before and after. */
    method InterfereAtRest(ghost me: Tid)
      requires Valid() && At(me).RunAt? && (At(me).phase == ParkBlock || At(me).phase == Deliver)
      modifies this, current_behavior_.Repr
      ensures Valid() && Later() && Did(me, 0, 0, 0) && At(me) == old(At(me))
      ensures old(current_behavior_.Done()) && current_behavior_.Done()
    {
      LiveIsLeftAlone(me);
      Interfere(me);
      LiveIsLeftAlone(me);
    }

    /** ... and a turn that ends with it unfinished answers `resume`, unless the actor is being destroyed. */
    lemma LiveYieldsResume(t: Tid)
      requires Valid() && (At(t).GuardLoad? || At(t).GuardCas?)
      ensures current_behavior_.Done() || IsDestroying(state_) || (At(t).verdict.Resume? && At(t).keep)
    {
      ReachedInv(trace);
      AwaitChains.BusyIffNotDone(current_behavior_);
    }

    // ---------- resume_impl and park ----------

    method ResumeImpl(ghost me: Tid, maxThroughput: nat) returns (r: Outcome<(Verdict, nat, bool)>)
      requires Valid() && At(me) == RunAt(EntryDestroying, maxThroughput, 0) && maxThroughput > 0
      modifies this, current_behavior_.Repr
      ensures Valid() && Later()
      ensures r.Returned? ==> Did(me, 0, 0, r.value.1)
      ensures r.Aborted? ==> dtor.Gone?
      ensures old(IsDestroying(state_)) ==> r == Returned((Done, 0, false))
      ensures r.Returned? ==>
                && At(me) == GuardLoad(maxThroughput, r.value.0, r.value.1, r.value.2)
                && r.value.1 <= maxThroughput
    {
      var stage := EnterTurn(me, maxThroughput);
      if stage.Aborted? { return Aborted; }
      if stage.value.Ended? { return Returned(stage.value.answer); }

      r := MessageLoop(me, maxThroughput);
    }

    /** The loop over messages, and what follows it. */
    method MessageLoop(ghost me: Tid, maxThroughput: nat) returns (r: Outcome<(Verdict, nat, bool)>)
      requires Valid() && At(me) == RunAt(LoopEntry(maxThroughput, 0), maxThroughput, 0)
      modifies this, current_behavior_.Repr
      ensures Valid() && Later()
      ensures r.Returned? ==> Did(me, 0, 0, r.value.1)
      ensures r.Aborted? ==> dtor.Gone?
      ensures r.Returned? ==>
                && At(me) == GuardLoad(maxThroughput, r.value.0, r.value.1, r.value.2)
                && r.value.1 <= maxThroughput
    {
      var handled := 0;
      while handled < maxThroughput
        invariant Valid() && Later() && Did(me, 0, 0, handled) && handled <= maxThroughput
        invariant At(me) == RunAt(LoopEntry(maxThroughput, handled), maxThroughput, handled)
      {
        var stage := HandleOne(me, maxThroughput, handled);
        if stage.Aborted? { return Aborted; }
        if stage.value.Ended? { return Returned(stage.value.answer); }
        handled := handled + 1;
      }
      r := LeaveTurn(me, maxThroughput, handled);
    }

    /** Up to the loop: refuse a dying actor, un-park, drain a suspended behavior, look for messages. */
    method EnterTurn(ghost me: Tid, max: nat) returns (r: Outcome<Stage>)
      requires Valid() && At(me) == RunAt(EntryDestroying, max, 0) && max > 0
      modifies this, current_behavior_.Repr
      ensures Valid() && Later() && Did(me, 0, 0, 0)
      ensures r.Aborted? ==> dtor.Gone?
      ensures old(IsDestroying(state_)) ==> r == Returned(Ended((Done, 0, false)))
      ensures r.Returned? ==> StageOk(r.value, At(me), max, 0, 0)
    {
      var b := DyingOrClosed(me);
      if b { return Returned(Ended((Done, 0, false))); }
      b := UnparkAndDrain(me);
      if b { return Returned(Ended((Verdict.Resume, 0, true))); }
      r := LookForMessages(me, max);
    }

    method UnparkAndDrain(ghost me: Tid) returns (busy: bool)
      requires Valid() && At(me).RunAt? && At(me).phase == EntryUnpark
      modifies this, current_behavior_.Repr
      ensures Valid() && Later() && Did(me, 0, 0, 0)
      ensures var p := old(At(me));
              At(me) == if busy then Finalize(p, Verdict.Resume, true) else p.(phase := EntryBlocked)
    {
      UnparkInbox(me);
      busy := DrainBehavior(me);
    }

    method LookForMessages(ghost me: Tid, max: nat) returns (r: Outcome<Stage>)
      requires Valid() && At(me) == RunAt(EntryBlocked, max, 0) && max > 0
      modifies this, current_behavior_.Repr
      ensures Valid() && Later() && Did(me, 0, 0, 0)
      ensures r.Aborted? ==> dtor.Gone?
      ensures r.Returned? ==> StageOk(r.value, At(me), max, 0, 0)
    {
      var b := LoadsBlocked(me);
      if b { return Returned(Ended((Awaiting, 0, false))); }
      var empty := MailboxEmpty(me);
      if empty.Aborted? { return Aborted; }
      if !empty.value { return Returned(Continues); }
      r := ParkAndEnd(me, max, 0);
    }

    /** One iteration of the loop. */
    method HandleOne(ghost me: Tid, max: nat, handled: nat) returns (r: Outcome<Stage>)
      requires Valid() && At(me) == RunAt(HeadDestroying, max, handled) && handled < max
      modifies this, current_behavior_.Repr
      ensures Valid() && Later()
      ensures r.Returned? ==> Did(me, 0, 0, One(r.value.Continues?))
      ensures r.Aborted? ==> dtor.Gone?
      ensures r.Returned? ==> StageOk(r.value, At(me), max, handled, handled + 1)
    {
      var b := DyingOrClosed(me);
      if b { return Returned(Ended((Done, handled, false))); }
      var stage := BlockedOrBusy(me, max, handled);
      if stage.Ended? { return Returned(stage); }
      r := PopAndDeliver(me, max, handled);
    }

    method BlockedOrBusy(ghost me: Tid, ghost max: nat, handled: nat) returns (stage: Stage)
      requires Valid() && At(me) == RunAt(HeadBlocked, max, handled)
      modifies this, current_behavior_.Repr
      ensures Valid() && Later() && Did(me, 0, 0, 0)
      ensures if stage.Ended? then StageOk(stage, At(me), max, handled, handled) else At(me) == RunAt(HeadPop, max, handled)
    {
      var b := LoadsBlocked(me);
      if b { return Ended((Awaiting, handled, false)); }
      b := DrainBehavior(me);
      stage := if b then Ended((Verdict.Resume, handled, true)) else Continues;
    }

    method PopAndDeliver(ghost me: Tid, max: nat, handled: nat) returns (r: Outcome<Stage>)
      requires Valid() && At(me) == RunAt(HeadPop, max, handled) && handled < max
      modifies this, current_behavior_.Repr
      ensures Valid() && Later()
      ensures r.Returned? ==> Did(me, 0, 0, One(r.value.Continues?))
      ensures r.Aborted? ==> dtor.Gone?
      ensures r.Returned? ==> StageOk(r.value, At(me), max, handled, handled + 1)
    {
      var popped := PopFront(me);
      if popped.Aborted? { return Aborted; }
      r := DeliverOrGiveUp(me, max, handled, popped.value);
    }

    method DeliverOrGiveUp(ghost me: Tid, max: nat, handled: nat, popped: bool) returns (r: Outcome<Stage>)
      requires Valid() && At(me) == RunAt(if popped then Deliver else NothingPopped, max, handled) && handled < max
      modifies this, current_behavior_.Repr
      ensures Valid() && Later() && Did(me, 0, 0, 0)
      ensures r.Aborted? ==> dtor.Gone?
      ensures r.Returned? ==> StageOk(r.value, At(me), max, handled, handled + 1) && r.value.Continues? == popped
    {
      if popped {
        DeliverMessage(me);
        r := Returned(Continues);
      } else {
        r := GiveUp(me, max, handled);
      }
    }

    /** Nothing was popped. */
    method GiveUp(ghost me: Tid, max: nat, handled: nat) returns (r: Outcome<Stage>)
      requires Valid() && At(me) == RunAt(NothingPopped, max, handled)
      modifies this, current_behavior_.Repr
      ensures Valid() && Later() && Did(me, 0, 0, 0)
      ensures r.Aborted? ==> dtor.Gone?
      ensures r.Returned? ==> r.value.Ended? && StageOk(r.value, At(me), max, handled, handled)
    {
      var b := LoadsClosed(me);
      if b { return Returned(Ended((Done, handled, false))); }
      r := ParkAndEnd(me, max, handled);
    }

    /** After the loop: the throughput is used up. */
    method LeaveTurn(ghost me: Tid, max: nat, handled: nat) returns (r: Outcome<(Verdict, nat, bool)>)
      requires Valid() && At(me) == RunAt(TailClosed, max, handled) && handled <= max
      modifies this, current_behavior_.Repr
      ensures Valid() && Later() && Did(me, 0, 0, 0)
      ensures r.Aborted? ==> dtor.Gone?
      ensures r.Returned? ==> At(me) == GuardLoad(max, r.value.0, r.value.1, r.value.2) && r.value.1 == handled
    {
      var b := LoadsClosed(me);
      if b { return Returned((Done, handled, false)); }
      var busy := current_behavior_.IsBusy();
      Step(Abs(), Advance(me, PLAIN));
      if busy { return Returned((Verdict.Resume, handled, true)); }
      r := Park(me, max, handled);
    }

    method ParkAndEnd(ghost me: Tid, max: nat, handled: nat) returns (r: Outcome<Stage>)
      requires Valid() && At(me) == RunAt(ParkBlock, max, handled)
      modifies this, current_behavior_.Repr
      ensures Valid() && Later() && Did(me, 0, 0, 0)
      ensures r.Aborted? ==> dtor.Gone?
      ensures r.Returned? ==> r.value.Ended? && StageOk(r.value, At(me), max, handled, handled)
    {
      var parked := Park(me, max, handled);
      if parked.Aborted? { return Aborted; }
      return Returned(Ended(parked.value));
    }

    /** Park on an empty inbox; never `awaiting` with the scheduled bit kept. */
    method Park(ghost me: Tid, ghost max: nat, handled: nat) returns (r: Outcome<(Verdict, nat, bool)>)
      requires Valid() && At(me) == RunAt(ParkBlock, max, handled)
      modifies this, current_behavior_.Repr
      ensures Valid() && Later() && Did(me, 0, 0, 0)
      ensures r.Aborted? ==> dtor.Gone?
      ensures r.Returned? ==>
                && At(me) == GuardLoad(max, r.value.0, handled, r.value.2)
                && r.value.1 == handled
                && (r.value.2 <==> r.value.0.Resume?) && !r.value.0.Done?
      ensures old(current_behavior_.Done())
    {
      var blocked := TryBlock(me);
      if !blocked { return Returned((Verdict.Resume, handled, true)); }
      var again := CheckRaceWindow(me);
      if again.Aborted? { return Aborted; }
      return Returned((if again.value then Verdict.Resume else Awaiting, handled, again.value));
    }

    /** Block the inbox. The behavior is done: a live one here would be the lost wakeup. */
    method TryBlock(ghost me: Tid) returns (blocked: bool)
      requires Valid() && At(me).RunAt? && At(me).phase == ParkBlock
      modifies this, current_behavior_.Repr
      ensures Valid() && Later() && Did(me, 0, 0, 0) && old(current_behavior_.Done())
      ensures var p := old(At(me));
              At(me) == if blocked then p.(phase := ParkRaceBlocked) else Finalize(p, Verdict.Resume, true)
    {
      InterfereAtRest(me);
      ghost var s := Abs();
      blocked := cached_ == 0 && inbox_ == Open(0);
      if blocked {
        inbox_ := Blocked;
      }
      Step(s, Advance(me, PLAIN));
    }

    /** `check_race_window`: something came in after the inbox was blocked. */
    method CheckRaceWindow(ghost me: Tid) returns (r: Outcome<bool>)
      requires Valid() && At(me).RunAt? && At(me).phase == ParkRaceBlocked
      modifies this, current_behavior_.Repr
      ensures Valid() && Later() && Did(me, 0, 0, 0)
      ensures r.Aborted? ==> dtor.Gone?
      ensures r.Returned? ==> At(me) == Finalize(old(At(me)), if r.value then Verdict.Resume else Awaiting, r.value)
    {
      var still := LoadsBlocked(me);
      if still { return Returned(false); }
      var empty := MailboxEmpty(me);
      if empty.Aborted? { return Aborted; }
      return Returned(!empty.value);
    }

    // ---------- the destructor ----------

    /** Actions of other threads while the destructor runs: they never move the destructor. */
    method InterfereWithDestructor()
      requires Valid()
      modifies this, current_behavior_.Repr
      ensures Valid() && dtor == old(dtor) && Later()
      ensures Tried(TheDestructor) == old(Tried(TheDestructor))
    {
    }

    /** The word the destructor loaded for its last exchange has a runner in it. */
    ghost predicate RunnerAtTerminal()
      reads this
    {
      dtor.Terminal? && dtor.seen.running
    }

    /** Publish `destroying`, wait for the senders and the runner, write the terminal word. */
    method Destroy(patience: nat) returns (r: Outcome<()>)
      requires Valid() && dtor.Alive?
      modifies this, current_behavior_.Repr
      ensures Valid() && Later()
      ensures r.Returned? ==> dtor.Dead? && forall t :: !Has(Registered, At(t))
      ensures r.Returned? ==> Unpack(state_) == Word(false, false, true, 0)
      ensures r.Aborted? ==>
                || RunnerAtTerminal()
                || (dtor.Draining? && Tried(TheDestructor) >= old(Tried(TheDestructor)) + patience)
                || Tried(TheDestructor) >= old(Tried(TheDestructor)) + K_MAX_CAS_ATTEMPTS - 1
    {
      ghost var begun := trace;
      r := PublishDestroying();
      if r.Aborted? { return; }
      TriedGrows(begun, TheDestructor);
      r := WaitForActivityToDrain(patience);
      if r.Aborted? { return; }
      TriedGrows(begun, TheDestructor);
      r := WriteTerminal();
      if r.Aborted? { return; }
      RebuiltWords(state_, false, false, true);
      forall t ensures !Has(Registered, At(t)) {
        TerminalHasNoSender(trace, t);
      }
    }

    method PublishDestroying() returns (r: Outcome<()>)
      requires Valid() && dtor.Alive?
      modifies this, current_behavior_.Repr
      ensures Valid() && Later()
      ensures r.Returned? ==> dtor.Draining?
      ensures r.Aborted? ==> Tried(TheDestructor) == old(Tried(TheDestructor)) + K_MAX_CAS_ATTEMPTS - 1
    {
      InterfereWithDestructor();
      var current := state_;
      Step(Abs(), ActorMachine.Destroy(PLAIN));
      for attempts := 1 to K_MAX_CAS_ATTEMPTS
        invariant Valid() && Later() && dtor == Publish(Unpack(current))
        invariant Tried(TheDestructor) == old(Tried(TheDestructor)) + attempts - 1
      {
        if IsDestroying(current) {
          Step(Abs(), ActorMachine.Destroy(PLAIN));
          return Returned(());
        }
        FlagUpdates(current, true);
        var ok;
        ok, current := DestructorExchange(current, SetDestroying(current));
        if ok { return Returned(()); }
      }
      return Aborted;
    }

    /** The destructor's own compare-exchange, at either of its two loops. */
    method DestructorExchange(current: Packed, desired: Packed) returns (ok: bool, seen: Packed)
      requires Valid()
      requires (dtor == Publish(Unpack(current)) && !IsDestroying(current)) || dtor == Terminal(Unpack(current))
      requires dtor.Terminal? ==> !IsRunning(current) && SenderCount(current) == 0
      requires Unpack(desired) == if dtor.Publish? then Unpack(current).(destroying := true) else Word(false, false, true, 0)
      modifies this, current_behavior_.Repr
      ensures Valid() && Later()
      ensures ok ==> state_ == desired
      ensures dtor == if old(dtor).Publish?
                      then (if ok then Draining else Publish(Unpack(seen)))
                      else (if ok then Dead else Terminal(Unpack(seen)))
      ensures Tried(TheDestructor) == old(Tried(TheDestructor)) + One(!ok)
    {
      InterfereWithDestructor();
      ghost var s := Abs();
      SameWord(state_, current);
      var spurious: bool := *;
      seen := state_;
      ok := state_ == current && !spurious;
      if ok {
        state_ := desired;
      }
      Step(s, ActorMachine.Destroy(PLAIN.(spurious := spurious)));
    }

    /** Wait for the runner and every registered sender; give up when the time-out strikes. */
    method WaitForActivityToDrain(patience: nat) returns (r: Outcome<()>)
      requires Valid() && dtor.Draining?
      modifies this, current_behavior_.Repr
      ensures Valid() && Later()
      ensures r.Returned? ==> dtor.TerminalLoad?
      ensures r.Returned? ==> !IsRunning(state_) && SenderCount(state_) == 0
      ensures r.Aborted? ==> dtor.Draining? && Tried(TheDestructor) == old(Tried(TheDestructor)) + patience
    {
      for waited := 0 to patience
        invariant Valid() && Later() && dtor.Draining?
        invariant Tried(TheDestructor) == old(Tried(TheDestructor)) + waited
      {
        InterfereWithDestructor();
        var busy := IsRunning(state_) || SenderCount(state_) != 0;
        Step(Abs(), ActorMachine.Destroy(PLAIN));
        if !busy { return Returned(()); }
      }
      return Aborted;
    }

    /** The terminal loop. Its sender assertion always holds; its runner assertion may abort. */
    method WriteTerminal() returns (r: Outcome<()>)
      requires Valid() && dtor.TerminalLoad?
      modifies this, current_behavior_.Repr
      ensures Valid() && Later()
      ensures r.Returned? ==> dtor.Dead?
      ensures r.Returned? ==> state_ == MakeState(false, false, true)
      ensures r.Aborted? ==> RunnerAtTerminal() || Tried(TheDestructor) == old(Tried(TheDestructor)) + K_MAX_CAS_ATTEMPTS - 1
    {
      InterfereWithDestructor();
      var current := state_;
      Step(Abs(), ActorMachine.Destroy(PLAIN));
      for attempts := 1 to K_MAX_CAS_ATTEMPTS
        invariant Valid() && Later() && dtor == Terminal(Unpack(current))
        invariant Tried(TheDestructor) == old(Tried(TheDestructor)) + attempts - 1
      {
        if IsRunning(current) { return Aborted; }
        var ok;
        ok, current := TryWriteTerminal(current);
        if ok { return Returned(()); }
      }
      return Aborted;
    }

    /** One exchange of the terminal loop; the sender count it erases is zero, as the source asserts. */
    method TryWriteTerminal(current: Packed) returns (ok: bool, seen: Packed)
      requires Valid() && dtor == Terminal(Unpack(current)) && !IsRunning(current)
      modifies this, current_behavior_.Repr
      ensures Valid() && Later() && SenderCount(current) == 0
      ensures ok ==> state_ == MakeState(false, false, true)
      ensures dtor == if ok then Dead else Terminal(Unpack(seen))
      ensures Tried(TheDestructor) == old(Tried(TheDestructor)) + One(!ok)
    {
      ReachedInv(trace);
      RebuiltWords(current, false, false, true);
      ok, seen := DestructorExchange(current, MakeState(false, false, true));
    }
  }
}
