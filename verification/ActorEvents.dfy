/** What is counted along a run: attempts made in vain, messages accepted and popped, readers woken. */
module ActorEvents {
  import opened Wrappers
  import opened StateWord
  import opened ActorMachine

  datatype Party = Thread(t: Tid) | TheDestructor

  datatype Event =
    | Retry(who: Party)      // the party's step ends where it began
    | Accept(t: Tid)         // the thread's step adds a message to the mailbox,
    | Wake(t: Tid)           // ... adds one to a blocked inbox,
    | Pop(t: Tid)            // ... or takes one out
    | Push                   // some sender finds the inbox not closed
    | Hand                   // some runner gets a message to deliver

  /** About to compare-exchange the state word. */
  predicate Exchanges(p: Pc)
  {
    (p.SendGate? && !p.seen.destroying) || p.SendLeave? || p.ResumeAcquire? || p.GuardCas?
  }

  /** The action is this party's, and it ends where it began: a failed exchange, or a wait in vain. */
  predicate Retries(s: State, a: Action, who: Party)
  {
    match who
    case Thread(t) =>
      a.Advance? && a.t == t && Exchanges(PcOf(s, t)) && (s.word != PcOf(s, t).seen || a.c.spurious)
    case TheDestructor =>
      a.Destroy? &&
      match s.dtor
      case Publish(seen) => !seen.destroying && (s.word != seen || a.c.spurious)
      case Draining => s.word.running || s.word.senders != 0
      case Terminal(seen) => s.word != seen || a.c.spurious
      case _ => false
  }

  predicate Delivers(p: Pc)
  {
    p.RunAt? && p.phase == Deliver
  }

  predicate Happens(s: State, a: Action, e: Event)
    requires Enabled(s, a)
  {
    match e
    case Retry(who) => Retries(s, a, who)
    case Accept(t) => a.Advance? && a.t == t && Waiting(Apply(s, a)) == Waiting(s) + 1
    case Wake(t) => a.Advance? && a.t == t && s.inbox.Blocked? && Waiting(Apply(s, a)) > Waiting(s)
    case Pop(t) => a.Advance? && a.t == t && Waiting(Apply(s, a)) < Waiting(s)
    case Push => a.Advance? && PcOf(s, a.t).SendRegistered? && !s.inbox.Closed?
    case Hand => a.Advance? && !Delivers(PcOf(s, a.t)) && Delivers(PcOf(Apply(s, a), a.t))
  }

  function Times(s: State, actions: seq<Action>, e: Event): nat
    requires IsRun(s, actions)
    decreases |actions|
  {
    if actions == [] then 0
    else One(Happens(s, actions[0], e)) + Times(Apply(s, actions[0]), actions[1..], e)
  }

  lemma {:induction false} TimesAppend(s: State, actions: seq<Action>, a: Action, e: Event)
    requires IsRun(s, actions) && Enabled(After(s, actions), a) && IsRun(s, actions + [a])
    ensures Times(s, actions + [a], e) == Times(s, actions, e) + One(Happens(After(s, actions), a, e))
    decreases |actions|
  {
    if actions == [] {
      assert ([] + [a])[1..] == [];
    } else {
      assert (actions + [a])[1..] == actions[1..] + [a];
      TimesAppend(Apply(s, actions[0]), actions[1..], a, e);
    }
  }

  lemma {:induction false} TimesGrow(s: State, before: seq<Action>, after: seq<Action>, e: Event)
    requires IsRun(s, before) && IsRun(s, after) && before <= after
    ensures Times(s, before, e) <= Times(s, after, e)
    decreases |before|
  {
    if before != [] {
      assert before[1..] <= after[1..];
      TimesGrow(Apply(s, before[0]), before[1..], after[1..], e);
    }
  }
}
