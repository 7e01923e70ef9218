/**
 The scheduling protocol of one cooperative actor as a state machine: any number of threads that
 send to it, drive it and destroy it, one step per atomic operation on the state word or the inbox.
 */
module ActorMachine {
  import opened Wrappers
  import opened StateWord

  type Tid = nat

  /** What `resume` tells its driver. An actor never answers `shutdown`. */
  datatype Verdict = Resume | Awaiting | Done

  /** The inbox as an atomic object: the reader's blocked tag, the closed tag, or a stack of messages. */
  datatype Inbox = Blocked | Closed | Open(count: nat)

  /** Where the holder of `running` stands inside `resume_impl` and `park`. */
  datatype Phase =
    | EntryDestroying | EntryClosed | EntryUnpark | EntryDrain | EntryBlocked | EntryEmpty
    | HeadDestroying | HeadClosed | HeadBlocked | HeadDrain | HeadPop | Deliver | NothingPopped
    | TailClosed | TailBusy
    | ParkBlock | ParkRaceBlocked | ParkRaceEmpty

  /** A thread's program counter together with the locals it still needs. */
  datatype Pc =
    | Idle
    // enqueue_impl and leave_and_maybe_schedule
    | SendGate(seen: Word)
    | SendRegistered
    | SendPushed(unblocked: bool)
    | SendLeave(unblocked: bool, seen: Word)
    | SendReturned(needsSched: bool)
    // resume: the compare-exchange of try_acquire_running, the turn, the guard's compare-exchange
    | ResumeStart(max: nat)
    | ResumeAcquire(max: nat, seen: Word)
    | RunAt(phase: Phase, max: nat, handled: nat)
    | GuardLoad(max: nat, verdict: Verdict, handled: nat, keep: bool)
    | GuardCas(max: nat, verdict: Verdict, handled: nat, keep: bool, scheduledWhileRunning: bool, seen: Word)
    | ResumeReturned(verdict: Verdict, handled: nat)

  /** Where the destructor stands; `Gone` is after the mailbox member has closed its inbox. */
  datatype Dtor = Alive | Publish(seen: Word) | Draining | TerminalLoad | Terminal(seen: Word) | Dead | Gone

  datatype State = State(
    word: Word,
    inbox: Inbox,
    cached: nat,           // messages in the mailbox's two lists
    live: bool,            // current_behavior_ is suspended at a co_await
    pc: map<Tid, Pc>,
    queued: nat,           // job nodes of this actor in a run queue
    dtor: Dtor,
    owner: Tid,            // auxiliary: who acquired `running` last
    popped: nat)           // auxiliary: messages popped in the turn of `owner`

  /** The outcomes the machine does not fix itself. */
  datatype Choice = Choice(
    spurious: bool,        // a weak compare-exchange fails although the word matches
    ready: bool,           // the awaited future is released
    suspends: bool)        // the behavior ends this activation at a co_await

  datatype Action =
    | Send(t: Tid)                  // an idle thread calls enqueue_impl
    | TakeJob(t: Tid, max: nat)     // a worker dequeues a job node and calls resume
    | Poke(t: Tid, max: nat)        // a thread calls resume although no job was dequeued
    | Advance(t: Tid, c: Choice)    // a thread takes its next atomic step
    | Destroy(c: Choice)            // the destructor takes its next atomic step

  function PcOf(s: State, t: Tid): Pc
  {
    if t in s.pc then s.pc[t] else Idle
  }

  function Moves(s: State, t: Tid, p: Pc): State
  {
    s.(pc := s.pc[t := p])
  }

  function Init(): State
  {
    // The constructor parks the mailbox.
    State(Word(false, false, false, 0), Blocked, 0, false, map[], 0, Alive, 0, 0)
  }

  // ---------- the mailbox ----------

  /** Messages in the mailbox, cached or still in the inbox. */
  function Waiting(s: State): nat
  {
    s.cached + (if s.inbox.Open? then s.inbox.count else 0)
  }

  /** `fetch_more`: what the inbox holds moves to the cached lists. */
  function Fetched(s: State): State
  {
    if s.inbox.Open? then s.(inbox := Open(0), cached := s.cached + s.inbox.count) else s
  }

  /** The `try_block` of the mailbox: only with nothing cached, and only on an empty inbox. */
  predicate CanBlock(s: State)
  {
    s.cached == 0 && s.inbox == Open(0)
  }

  // ---------- enabledness ----------

  predicate Enabled(s: State, a: Action)
  {
    match a
    case Send(t) => PcOf(s, t).Idle?
    case TakeJob(t, max) => PcOf(s, t).Idle? && s.queued > 0 && max > 0
    case Poke(t, max) => PcOf(s, t).Idle? && max > 0
    case Advance(t, c) =>
      var p := PcOf(s, t);
      && !p.Idle?
      // enqueue_impl asserts the count bound before it registers
      && (p.SendGate? && !p.seen.destroying ==> p.seen.senders < MAX_SENDERS)
      // leave_and_maybe_schedule asserts that it is registered
      && (p.SendLeave? ==> p.seen.senders > 0)
      // take_head asserts an inbox that is neither blocked nor closed
      && (p.RunAt? && p.phase in {EntryEmpty, ParkRaceEmpty} ==> s.inbox.Open?)
      && (p.RunAt? && p.phase == HeadPop ==> s.cached > 0 || s.inbox.Open?)
    case Destroy(c) =>
      && !s.dtor.Gone?
      // the destructor's terminal loop asserts that nobody runs and no sender is registered
      && (s.dtor.Terminal? ==> !s.dtor.seen.running && s.dtor.seen.senders == 0)
  }

  // ---------- steps ----------

  function Apply(s: State, a: Action): State
    requires Enabled(s, a)
  {
    match a
    case Send(t) => Moves(s, t, SendGate(s.word))
    case TakeJob(t, max) => Moves(s.(queued := s.queued - 1), t, ResumeStart(max))
    case Poke(t, max) => Moves(s, t, ResumeStart(max))
    case Advance(t, c) =>
      var p := PcOf(s, t);
      if p.RunAt? then AdvanceRunner(s, t, p, c)
      else if p.GuardLoad? || p.GuardCas? then AdvanceGuard(s, t, p, c)
      else if p.ResumeStart? || p.ResumeAcquire? || p.ResumeReturned? then AdvanceDriver(s, t, p, c)
      else AdvanceSender(s, t, p, c)
    case Destroy(c) => AdvanceDestructor(s, c)
  }

  function AdvanceSender(s: State, t: Tid, p: Pc, c: Choice): State
    requires p.SendGate? || p.SendRegistered? || p.SendPushed? || p.SendLeave? || p.SendReturned?
    requires p.SendLeave? ==> p.seen.senders > 0
  {
    match p
    case SendGate(seen) =>
      if seen.destroying then Moves(s, t, SendReturned(false))
      else if s.word == seen && !c.spurious then
        Moves(s.(word := s.word.(senders := s.word.senders + 1)), t, SendRegistered)
      else Moves(s, t, SendGate(s.word))
    case SendRegistered =>
      (match s.inbox
       case Closed => Moves(s, t, SendPushed(false))
       case Blocked => Moves(s.(inbox := Open(1)), t, SendPushed(true))
       case Open(n) => Moves(s.(inbox := Open(n + 1)), t, SendPushed(false)))
    case SendPushed(unblocked) => Moves(s, t, SendLeave(unblocked, s.word))
    case SendLeave(unblocked, seen) =>
      if s.word == seen && !c.spurious then
        var left := seen.(senders := seen.senders - 1);
        if unblocked && !seen.destroying && !seen.scheduled then
          Moves(s.(word := left.(scheduled := true)), t, SendReturned(!seen.running))
        else
          Moves(s.(word := left), t, SendReturned(false))
      else Moves(s, t, SendLeave(unblocked, s.word))
    case SendReturned(needsSched) =>
      Moves(s.(queued := s.queued + (if needsSched then 1 else 0)), t, Idle)
  }

  function AdvanceDriver(s: State, t: Tid, p: Pc, c: Choice): State
    requires p.ResumeStart? || p.ResumeAcquire? || p.ResumeReturned?
  {
    match p
    case ResumeStart(max) => Moves(s, t, ResumeAcquire(max, s.word))
    case ResumeAcquire(max, seen) =>
      if s.word != seen || c.spurious then Moves(s, t, ResumeAcquire(max, s.word))
      else if seen.running then
        Moves(s.(word := seen.(scheduled := true)), t, ResumeReturned(Awaiting, 0))
      else
        Moves(s.(word := seen.(running := true, scheduled := false), owner := t, popped := 0),
              t, RunAt(EntryDestroying, max, 0))
    case ResumeReturned(verdict, handled) =>
      // the driver honours the verdict: `resume` re-enqueues the node, the others drop it
      Moves(s.(queued := s.queued + (if verdict.Resume? then 1 else 0)), t, Idle)
  }

  /** `finalize`: leave the turn with a verdict and enter the guard's destructor. */
  function Finalize(p: Pc, verdict: Verdict, keep: bool): Pc
    requires p.RunAt?
  {
    GuardLoad(p.max, verdict, p.handled, keep)
  }

  /** The drain: resume the awaited continuation if its future is released. */
  function Drained(s: State, c: Choice): State
  {
    s.(live := s.live && (!c.ready || c.suspends))
  }

  function AdvanceRunner(s: State, t: Tid, p: Pc, c: Choice): State
    requires p.RunAt?
    requires p.phase in {EntryEmpty, ParkRaceEmpty} ==> s.inbox.Open?
    requires p.phase == HeadPop ==> s.cached > 0 || s.inbox.Open?
  {
    match p.phase
    case EntryDestroying =>
      Moves(s, t, if s.word.destroying then Finalize(p, Done, false) else p.(phase := EntryClosed))
    case EntryClosed =>
      Moves(s, t, if s.inbox.Closed? then Finalize(p, Done, false) else p.(phase := EntryUnpark))
    case EntryUnpark =>
      Moves(if s.inbox.Blocked? then s.(inbox := Open(0)) else s, t, p.(phase := EntryDrain))
    case EntryDrain =>
      var s' := Drained(s, c);
      Moves(s', t, if s'.live then Finalize(p, Resume, true) else p.(phase := EntryBlocked))
    case EntryBlocked =>
      Moves(s, t, if s.inbox.Blocked? then Finalize(p, Awaiting, false) else p.(phase := EntryEmpty))
    case EntryEmpty =>
      var s' := Fetched(s);
      Moves(s', t, p.(phase := if s'.cached == 0 then ParkBlock else LoopEntry(p.max, p.handled)))
    case HeadDestroying =>
      Moves(s, t, if s.word.destroying then Finalize(p, Done, false) else p.(phase := HeadClosed))
    case HeadClosed =>
      Moves(s, t, if s.inbox.Closed? then Finalize(p, Done, false) else p.(phase := HeadBlocked))
    case HeadBlocked =>
      Moves(s, t, if s.inbox.Blocked? then Finalize(p, Awaiting, false) else p.(phase := HeadDrain))
    case HeadDrain =>
      var s' := Drained(s, c);
      Moves(s', t, if s'.live then Finalize(p, Resume, true) else p.(phase := HeadPop))
    case HeadPop =>
      var s' := if s.cached > 0 then s else Fetched(s);
      if s'.cached > 0 then
        Moves(s'.(cached := s'.cached - 1, popped := s.popped + 1), t, p.(phase := Deliver))
      else
        Moves(s', t, p.(phase := NothingPopped))
    case Deliver =>
      // `behavior(msg)` replaces current_behavior_ unless the actor is being destroyed
      var s' := if s.word.destroying then s else s.(live := c.suspends);
      Moves(s', t, RunAt(LoopEntry(p.max, p.handled + 1), p.max, p.handled + 1))
    case NothingPopped =>
      Moves(s, t, if s.inbox.Closed? then Finalize(p, Done, false) else p.(phase := ParkBlock))
    case TailClosed =>
      Moves(s, t, if s.inbox.Closed? then Finalize(p, Done, false) else p.(phase := TailBusy))
    case TailBusy =>
      Moves(s, t, if s.live then Finalize(p, Resume, true) else p.(phase := ParkBlock))
    case ParkBlock =>
      if CanBlock(s) then Moves(s.(inbox := Blocked), t, p.(phase := ParkRaceBlocked))
      else Moves(s, t, Finalize(p, Resume, true))
    case ParkRaceBlocked =>
      Moves(s, t, if s.inbox.Blocked? then Finalize(p, Awaiting, false) else p.(phase := ParkRaceEmpty))
    case ParkRaceEmpty =>
      var s' := Fetched(s);
      Moves(s', t, if s'.cached == 0 then Finalize(p, Awaiting, false) else Finalize(p, Resume, true))
  }

  /** The loop condition `handled < max_throughput`. */
  function LoopEntry(max: nat, handled: nat): Phase
  {
    if handled < max then HeadDestroying else TailClosed
  }

  function AdvanceGuard(s: State, t: Tid, p: Pc, c: Choice): State
    requires p.GuardLoad? || p.GuardCas?
  {
    match p
    case GuardLoad(max, verdict, handled, keep) =>
      Moves(s, t, GuardCas(max, verdict, handled, keep, s.word.scheduled, s.word))
    case GuardCas(max, verdict, handled, keep, scheduledWhileRunning, seen) =>
      if s.word == seen && !c.spurious then
        var final := if verdict.Awaiting? && scheduledWhileRunning then Resume else verdict;
        Moves(s.(word := seen.(running := false, scheduled := keep || seen.scheduled)),
              t, ResumeReturned(final, handled))
      else
        Moves(s, t, GuardCas(max, verdict, handled, keep, scheduledWhileRunning || s.word.scheduled, s.word))
  }

  function AdvanceDestructor(s: State, c: Choice): State
    requires !s.dtor.Gone?
    requires s.dtor.Terminal? ==> !s.dtor.seen.running && s.dtor.seen.senders == 0
  {
    match s.dtor
    case Alive => s.(dtor := Publish(s.word))
    case Publish(seen) =>
      if seen.destroying then s.(dtor := Draining)
      else if s.word == seen && !c.spurious then s.(word := seen.(destroying := true), dtor := Draining)
      else s.(dtor := Publish(s.word))
    case Draining =>
      if s.word.running || s.word.senders != 0 then s else s.(dtor := TerminalLoad)
    case TerminalLoad => s.(dtor := Terminal(s.word))
    case Terminal(seen) =>
      if s.word == seen && !c.spurious then s.(word := Word(false, false, true, 0), dtor := Dead)
      else s.(dtor := Terminal(s.word))
    case Dead => s.(inbox := Closed, cached := 0, dtor := Gone)
  }

  // ---------- runs ----------

  /** Every action of the list is enabled when its turn comes. */
  predicate IsRun(s: State, actions: seq<Action>)
    decreases |actions|
  {
    actions == [] || (Enabled(s, actions[0]) && IsRun(Apply(s, actions[0]), actions[1..]))
  }

  /** The state after a run. */
  function After(s: State, actions: seq<Action>): State
    requires IsRun(s, actions)
    decreases |actions|
  {
    if actions == [] then s else After(Apply(s, actions[0]), actions[1..])
  }

  /** A run in which job nodes arise only from a send that was told to schedule. */
  predicate NoPoke(actions: seq<Action>)
  {
    forall i :: 0 <= i < |actions| ==> !actions[i].Poke?
  }

  // ---------- roles and their counts ----------

  datatype Role = Registered | Pending | Job

  /** A thread that runs the turn: from acquiring `running` to the guard's successful exchange. */
  predicate Runs(p: Pc)
  {
    p.RunAt? || p.GuardLoad? || p.GuardCas?
  }

  predicate Has(r: Role, p: Pc)
  {
    match r
    case Registered => p.SendRegistered? || p.SendPushed? || p.SendLeave?
    // a registered sender whose push unblocked the reader and which has not discharged that yet
    case Pending => (p.SendPushed? || p.SendLeave?) && p.unblocked
    // a job node owed by a sender or in the hand of a driver
    case Job =>
      || (p.SendReturned? && p.needsSched)
      || p.ResumeStart? || p.ResumeAcquire? || Runs(p)
      || (p.ResumeReturned? && p.verdict.Resume?)
  }

  ghost function Holders(pc: map<Tid, Pc>, r: Role): set<Tid>
  {
    set t | t in pc && Has(r, pc[t])
  }

  ghost function Count(pc: map<Tid, Pc>, r: Role): nat
  {
    |Holders(pc, r)|
  }

  /** Outstanding job nodes: queued, owed by a sender, or in a driver's hand. */
  ghost function Jobs(s: State): nat
  {
    s.queued + Count(s.pc, Job)
  }

  lemma SizeMoves(before: set<Tid>, after: set<Tid>, t: Tid)
    requires forall u :: u != t ==> (u in after <==> u in before)
    ensures |after| == |before| - One(t in before) + One(t in after)
  {
    var rest := before - {t};
    assert after == if t in after then rest + {t} else rest;
    assert before == if t in before then rest + {t} else rest;
  }

  lemma CountMoves(pc: map<Tid, Pc>, t: Tid, p: Pc, r: Role)
    ensures Count(pc[t := p], r) == Count(pc, r) - One(t in pc && Has(r, pc[t])) + One(Has(r, p))
  {
    SizeMoves(Holders(pc, r), Holders(pc[t := p], r), t);
  }

  lemma CountsMove(pc: map<Tid, Pc>, t: Tid, p: Pc)
    ensures var q := if t in pc then pc[t] else Idle;
            && Count(pc[t := p], Registered) == Count(pc, Registered) - One(Has(Registered, q)) + One(Has(Registered, p))
            && Count(pc[t := p], Pending) == Count(pc, Pending) - One(Has(Pending, q)) + One(Has(Pending, p))
            && Count(pc[t := p], Job) == Count(pc, Job) - One(Has(Job, q)) + One(Has(Job, p))
  {
    CountMoves(pc, t, p, Registered);
    CountMoves(pc, t, p, Pending);
    CountMoves(pc, t, p, Job);
  }

  lemma CountTwo(pc: map<Tid, Pc>, t: Tid, u: Tid, r: Role)
    requires t in pc && u in pc && Has(r, pc[t]) && Has(r, pc[u])
    ensures Count(pc, r) >= if t == u then 1 else 2
  {
    assert {t, u} <= Holders(pc, r);
    var rest := Holders(pc, r) - {t, u};
    assert Holders(pc, r) == rest + {t, u};
  }

  lemma CountPositive(pc: map<Tid, Pc>, r: Role)
    ensures Count(pc, r) > 0 <==> exists t :: t in pc && Has(r, pc[t])
  {
    if Count(pc, r) > 0 {
      var t :| t in Holders(pc, r);
    }
    if t :| t in pc && Has(r, pc[t]) {
      assert t in Holders(pc, r);
    }
  }
}
