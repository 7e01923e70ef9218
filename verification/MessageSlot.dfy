/**
 Who owes a message's result slot its outcome: the message, unless its ownership has been transferred,
 and every promise taken from it. Any number of messages are made, moved, sent, dispatched, filled by
 hand and destroyed.
 */
module MessageSlots {
  import opened Wrappers

  /** `Cancelled` is the cleanup's; `Failure` is whatever a promise's holder passes to `error`. */
  datatype Outcome = Value(v: int) | Exception | Failure | BrokenPipe | Cancelled

  datatype Place = WithCaller | Queued | InTurn

  datatype Refusal = DestroyingGate | ClosedInbox

  /** The message's slot fields: `result_slot_`, whether `cleanup_fn_` is set, `ownership_transferred_`. */
  datatype Slot = Slot(state: Option<nat>, cleanup: bool, transferred: bool)

  datatype Msg = Msg(slot: Slot, place: Place)

  datatype State = State(
    messages: map<nat, Msg>,
    promises: map<nat, nat>,               // the live promises that still hold a state
    outcomes: map<nat, seq<Outcome>>,      // what each shared state was settled with, in order
    takes: map<nat, nat>,                  // auxiliary: how many promises were taken for a state
    transfers: set<nat>)                   // auxiliary: the states whose message gave up its ownership

  const NoSlot := Slot(None, false, false)

  datatype Action =
    | Make(m: nat, sid: nat)               // make_message
    | MakeBare(m: nat)                     // a message without a slot
    | MoveConstruct(to: nat, from: nat)
    | MoveAssign(to: nat, from: nat)
    | Swap(a: nat, b: nat)
    | DropUnsent(m: nat)
    | Refuse(m: nat, why: Refusal)         // enqueue_impl fails; the message dies
    | Accept(m: nat)
    | Bounce(m: nat)                       // the mailbox closes over it
    | Pop(m: nat)
    | TakePromise(m: nat, p: nat)          // get_result_promise
    | Transfer(m: nat)                     // transfer_ownership
    | EndActivation(m: nat)                // message_guard destroys it
    | MovePromise(q: nat, p: nat)
    | Settle(p: nat, o: Outcome)           // set_value, exception or error
    | DropPromise(p: nat)                  // ~promise, with its coroutine frame

  /** Whether `~message` would run the cleanup, and on which state. */
  function Owed(x: Slot): Option<nat>
  {
    if !x.transferred && x.cleanup then x.state else None
  }

  function With(outcomes: map<nat, seq<Outcome>>, debt: Option<nat>, o: Outcome): map<nat, seq<Outcome>>
  {
    if debt.Some? && debt.value in outcomes then outcomes[debt.value := outcomes[debt.value] + [o]] else outcomes
  }

  function Destroyed(s: State, m: nat): State
    requires m in s.messages
  {
    s.(messages := s.messages - {m}, outcomes := With(s.outcomes, Owed(s.messages[m].slot), Cancelled))
  }

  function Placed(s: State, m: nat, p: Place): State
    requires m in s.messages
  {
    s.(messages := s.messages[m := s.messages[m].(place := p)])
  }

  /** The first half of a move assignment: the cleanup, and no slot. */
  function Overwritten(s: State, m: nat): State
    requires m in s.messages
  {
    s.(messages := s.messages[m := Msg(NoSlot, s.messages[m].place)],
       outcomes := With(s.outcomes, Owed(s.messages[m].slot), Cancelled))
  }

  /** Give `to` the slot of `from`, which keeps none. */
  function Handed(s: State, to: nat, from: nat, p: Place): State
    requires from in s.messages && to != from
  {
    s.(messages := s.messages[from := Msg(NoSlot, s.messages[from].place)][to := Msg(s.messages[from].slot, p)])
  }

  predicate At(s: State, m: nat, p: Place)
  {
    m in s.messages && s.messages[m].place == p
  }

  predicate Enabled(s: State, x: Action)
  {
    match x
    case Make(m, sid) => m !in s.messages && sid !in s.outcomes
    case MakeBare(m) => m !in s.messages
    case MoveConstruct(to, from) => to !in s.messages && from in s.messages
    case MoveAssign(to, from) => to in s.messages && from in s.messages
    case Swap(a, b) => a in s.messages && b in s.messages
    case DropUnsent(m) => At(s, m, WithCaller)
    case Refuse(m, _) => At(s, m, WithCaller)
    case Accept(m) => At(s, m, WithCaller)
    case Bounce(m) => At(s, m, Queued)
    case Pop(m) => At(s, m, Queued)
    case TakePromise(m, p) => m in s.messages && s.messages[m].slot.state.Some? && p !in s.promises
    case Transfer(m) => m in s.messages
    case EndActivation(m) => At(s, m, InTurn)
    case MovePromise(q, p) => p in s.promises && q !in s.promises
    case Settle(p, o) => p in s.promises && (o.Value? || o.Exception? || o.Failure?)
    case DropPromise(p) => p in s.promises
  }

  function Apply(s: State, x: Action): State
    requires Enabled(s, x)
  {
    match x
    case Make(m, sid) =>
      s.(messages := s.messages[m := Msg(Slot(Some(sid), true, false), WithCaller)],
         outcomes := s.outcomes[sid := []], takes := s.takes[sid := 0])
    case MakeBare(m) => s.(messages := s.messages[m := Msg(NoSlot, WithCaller)])
    case MoveConstruct(to, from) => Handed(s, to, from, WithCaller)
    case MoveAssign(to, from) =>
      if to == from then s
      else Handed(Overwritten(s, to), to, from, s.messages[to].place)
    case Swap(a, b) =>
      s.(messages := s.messages[a := s.messages[a].(slot := s.messages[b].slot)]
                               [b := s.messages[b].(slot := s.messages[a].slot)])
    case DropUnsent(m) => Destroyed(s, m)
    case Refuse(m, _) => Destroyed(s, m)
    case Accept(m) => Placed(s, m, Queued)
    case Bounce(m) => Destroyed(s, m)
    case Pop(m) => Placed(s, m, InTurn)
    case TakePromise(m, p) =>
      var sid := s.messages[m].slot.state.value;
      s.(promises := s.promises[p := sid], takes := s.takes[sid := Takes(s, sid) + 1])
    case Transfer(m) =>
      var slot := s.messages[m].slot;
      s.(messages := s.messages[m := s.messages[m].(slot := slot.(transferred := true))],
         transfers := s.transfers + (if slot.state.Some? then {slot.state.value} else {}))
    case EndActivation(m) => Destroyed(s, m)
    case MovePromise(q, p) => s.(promises := (s.promises - {p})[q := s.promises[p]])
    case Settle(p, o) => Discharged(s, p, o)
    case DropPromise(p) => Discharged(s, p, BrokenPipe)
  }

  function Discharged(s: State, p: nat, o: Outcome): State
    requires p in s.promises
  {
    s.(promises := s.promises - {p}, outcomes := With(s.outcomes, Some(s.promises[p]), o))
  }

  function Takes(s: State, sid: nat): nat
  {
    if sid in s.takes then s.takes[sid] else 0
  }

  predicate IsRun(s: State, actions: seq<Action>)
    decreases |actions|
  {
    actions == [] || (Enabled(s, actions[0]) && IsRun(Apply(s, actions[0]), actions[1..]))
  }

  function After(s: State, actions: seq<Action>): State
    requires IsRun(s, actions)
    decreases |actions|
  {
    if actions == [] then s else After(Apply(s, actions[0]), actions[1..])
  }

  const Init := State(map[], map[], map[], map[], {})

  // ---------- who owes ----------

  predicate Carries(s: State, m: nat, sid: nat)
  {
    m in s.messages && s.messages[m].slot.state == Some(sid)
  }

  ghost predicate Carried(s: State, sid: nat)
  {
    exists m :: Carries(s, m, sid)
  }

  ghost function Holders(promises: map<nat, nat>, sid: nat): set<nat>
  {
    set p | p in promises && promises[p] == sid
  }

  /** How many live promises hold the state. */
  ghost function Holding(promises: map<nat, nat>, sid: nat): nat
  {
    |Holders(promises, sid)|
  }

  /** The message that carried the state is gone, and the state was still its own. */
  ghost predicate Abandoned(s: State, sid: nat)
  {
    !Carried(s, sid) && sid !in s.transfers
  }

  /** Each promise taken settles the state once, and so does the message that dies owning it. */
  ghost predicate Law(s: State, sid: nat)
    requires sid in s.outcomes
  {
    && |s.outcomes[sid]| + Holding(s.promises, sid) == Takes(s, sid) + One(Abandoned(s, sid))
    && multiset(s.outcomes[sid])[Cancelled] == One(Abandoned(s, sid))
  }

  /** A state is carried by one message at most, whose flag tells whether it was transferred. */
  ghost predicate CarrierInv(s: State)
  {
    && (forall m, n, sid :: Carries(s, m, sid) && Carries(s, n, sid) ==> m == n)
    && (forall m, sid :: Carries(s, m, sid) ==>
          sid in s.outcomes && s.messages[m].slot.cleanup && (s.messages[m].slot.transferred <==> sid in s.transfers))
    && (forall p <- s.promises :: s.promises[p] in s.outcomes)
    && s.takes.Keys == s.outcomes.Keys
    && s.transfers <= s.outcomes.Keys
  }

  ghost predicate Inv(s: State)
  {
    CarrierInv(s) && forall sid <- s.outcomes :: Law(s, sid)
  }

  /** The law speaks only of what the two states have in common. */
  lemma SameLaw(s: State, s': State, sid: nat)
    requires sid in s.outcomes && sid in s'.outcomes && Law(s, sid)
    requires s'.outcomes[sid] == s.outcomes[sid] && Takes(s', sid) == Takes(s, sid)
    requires Holding(s'.promises, sid) == Holding(s.promises, sid)
    requires Carried(s', sid) == Carried(s, sid) && (sid in s'.transfers <==> sid in s.transfers)
    ensures Law(s', sid)
  {
  }

  // A promise appears, goes, or changes its name.
  lemma PromiseAdded(promises: map<nat, nat>, p: nat, sid: nat, other: nat)
    requires p !in promises
    ensures Holding(promises[p := sid], other) == Holding(promises, other) + One(other == sid)
  {
    var before := Holders(promises, other);
    assert Holders(promises[p := sid], other) == if other == sid then before + {p} else before;
  }

  lemma PromiseGone(promises: map<nat, nat>, p: nat, other: nat)
    requires p in promises
    ensures Holding(promises - {p}, other) + One(other == promises[p]) == Holding(promises, other)
  {
    var rest := promises - {p};
    PromiseAdded(rest, p, promises[p], other);
    assert rest[p := promises[p]] == promises;
  }

  /** The same messages carry the same states, wherever they are. */
  lemma Unmoved(s: State, s': State)
    requires Inv(s)
    requires forall m :: m in s'.messages <==> m in s.messages
    requires forall m <- s.messages :: s'.messages[m].slot == s.messages[m].slot
    requires s' == s.(messages := s'.messages)
    ensures Inv(s')
  {
    assert forall m, sid :: Carries(s', m, sid) <==> Carries(s, m, sid);
    SameCarriers(s, s');
  }

  lemma SameCarriers(s: State, s': State)
    requires Inv(s) && CarrierInv(s') && s' == s.(messages := s'.messages)
    requires forall m, sid :: Carries(s, m, sid) ==> Carried(s', sid)
    requires forall m, sid :: Carries(s', m, sid) ==> Carried(s, sid)
    ensures Inv(s')
  {
    forall sid | sid in s'.outcomes
      ensures Law(s', sid)
    {
      SameLaw(s, s', sid);
    }
  }

  /** `m` loses its slot, to the cleanup if it still owns it. */
  lemma Lost(s: State, s': State, m: nat)
    requires Inv(s) && m in s.messages
    requires s' == s.(messages := s'.messages, outcomes := With(s.outcomes, Owed(s.messages[m].slot), Cancelled))
    requires forall n, sid :: Carries(s', n, sid) <==> n != m && Carries(s, n, sid)
    requires forall n, sid :: Carries(s', n, sid) ==> s'.messages[n].slot == s.messages[n].slot
    ensures Inv(s')
  {
    var slot := s.messages[m].slot;
    forall sid | sid in s'.outcomes
      ensures Law(s', sid)
    {
      if slot.state == Some(sid) {
        assert Carries(s, m, sid);
        assert !Carried(s', sid);
      } else {
        OtherCarrier(s, s', m, sid);
        SameLaw(s, s', sid);
      }
    }
  }

  lemma OtherCarrier(s: State, s': State, m: nat, sid: nat)
    requires m in s.messages && s.messages[m].slot.state != Some(sid)
    requires forall n :: Carries(s', n, sid) <==> n != m && Carries(s, n, sid)
    ensures Carried(s', sid) == Carried(s, sid)
  {
    if Carried(s, sid) {
      var n :| Carries(s, n, sid);
      assert Carries(s', n, sid);
    }
  }

  lemma DestroyedInv(s: State, m: nat)
    requires Inv(s) && m in s.messages
    ensures Inv(Destroyed(s, m))
  {
    Lost(s, Destroyed(s, m), m);
  }

  lemma HandedInv(s: State, to: nat, from: nat, p: Place)
    requires Inv(s) && from in s.messages && to != from && (to in s.messages ==> s.messages[to].slot == NoSlot)
    ensures Inv(Handed(s, to, from, p))
  {
    var s' := Handed(s, to, from, p);
    assert forall sid :: !Carries(s', from, sid) && (Carries(s', to, sid) <==> Carries(s, from, sid));
    assert forall m, sid :: m != to && m != from ==> (Carries(s', m, sid) <==> Carries(s, m, sid));
    forall m, sid | Carries(s, m, sid)
      ensures Carried(s', sid)
    {
      assert Carries(s', if m == from then to else m, sid);
    }
    forall m, sid | Carries(s', m, sid)
      ensures Carried(s, sid)
    {
      assert Carries(s, if m == to then from else m, sid);
    }
    SameCarriers(s, s');
  }

  lemma SwapInv(s: State, a: nat, b: nat)
    requires Inv(s) && a in s.messages && b in s.messages
    ensures Inv(Apply(s, Swap(a, b)))
  {
    var s' := Apply(s, Swap(a, b));
    forall m, sid
      ensures Carries(s', m, sid) <==> Carries(s, if m == a then b else if m == b then a else m, sid)
    {
    }
    forall m, sid | Carries(s, m, sid)
      ensures Carried(s', sid)
    {
      assert Carries(s', if m == a then b else if m == b then a else m, sid);
    }
    SameCarriers(s, s');
  }

  lemma MoveAssignInv(s: State, to: nat, from: nat)
    requires Inv(s) && Enabled(s, MoveAssign(to, from)) && to != from
    ensures Inv(Apply(s, MoveAssign(to, from)))
  {
    var t := Overwritten(s, to);
    OverwrittenInv(s, to);
    HandedInv(t, to, from, s.messages[to].place);
  }

  lemma OverwrittenInv(s: State, m: nat)
    requires Inv(s) && m in s.messages
    ensures Inv(Overwritten(s, m))
  {
    var t := Overwritten(s, m);
    assert forall n, sid :: Carries(t, n, sid) <==> n != m && Carries(s, n, sid);
    Lost(s, t, m);
  }

  lemma MakeInv(s: State, m: nat, sid: nat)
    requires Inv(s) && Enabled(s, Make(m, sid))
    ensures Inv(Apply(s, Make(m, sid)))
  {
    var s' := Apply(s, Make(m, sid));
    MakeCarriers(s, m, sid);
    assert Holders(s.promises, sid) == {};
    assert Carries(s', m, sid);
    forall other | other in s'.outcomes && other != sid
      ensures Law(s', other)
    {
      if Carried(s, other) {
        var n :| Carries(s, n, other);
        assert Carries(s', n, other);
      }
      SameLaw(s, s', other);
    }
  }

  lemma MakeCarriers(s: State, m: nat, sid: nat)
    requires Inv(s) && Enabled(s, Make(m, sid))
    ensures CarrierInv(Apply(s, Make(m, sid)))
    ensures forall n, other :: n != m ==> (Carries(Apply(s, Make(m, sid)), n, other) <==> Carries(s, n, other))
    ensures forall other :: Carries(Apply(s, Make(m, sid)), m, other) <==> other == sid
  {
    var s' := Apply(s, Make(m, sid));
    assert forall n, other :: n != m ==> (Carries(s', n, other) <==> Carries(s, n, other));
    assert forall other :: Carries(s', m, other) <==> other == sid;
  }

  lemma TakeInv(s: State, m: nat, p: nat)
    requires Inv(s) && Enabled(s, TakePromise(m, p))
    ensures Inv(Apply(s, TakePromise(m, p)))
  {
    var s' := Apply(s, TakePromise(m, p));
    var sid := s.messages[m].slot.state.value;
    assert Carries(s, m, sid);
    assert forall n, other :: Carries(s', n, other) <==> Carries(s, n, other);
    forall other | other in s'.outcomes
      ensures Law(s', other)
    {
      PromiseAdded(s.promises, p, sid, other);
      assert Carried(s', other) == Carried(s, other);
    }
  }

  lemma TransferInv(s: State, m: nat)
    requires Inv(s) && Enabled(s, Transfer(m))
    ensures Inv(Apply(s, Transfer(m)))
  {
    var s' := Apply(s, Transfer(m));
    TransferCarriers(s, m);
    forall other | other in s'.outcomes
      ensures Law(s', other)
    {
      assert Carried(s', other) == Carried(s, other);
      if Carries(s, m, other) {
        assert Carried(s, other);
      }
    }
  }

  lemma TransferCarriers(s: State, m: nat)
    requires Inv(s) && Enabled(s, Transfer(m))
    ensures CarrierInv(Apply(s, Transfer(m)))
    ensures forall n, other :: Carries(Apply(s, Transfer(m)), n, other) <==> Carries(s, n, other)
  {
    var s' := Apply(s, Transfer(m));
    assert forall n, other :: Carries(s', n, other) <==> Carries(s, n, other);
    forall n, other | Carries(s', n, other)
      ensures other in s'.outcomes && s'.messages[n].slot.cleanup
      ensures s'.messages[n].slot.transferred <==> other in s'.transfers
    {
      TransferFlag(s, m, n, other);
    }
    if s.messages[m].slot.state.Some? {
      assert Carries(s, m, s.messages[m].slot.state.value);
    }
  }

  lemma TransferFlag(s: State, m: nat, n: nat, other: nat)
    requires CarrierInv(s) && m in s.messages && Carries(s, n, other)
    ensures var s' := Apply(s, Transfer(m));
      && n in s'.messages && other in s'.outcomes && s'.messages[n].slot.cleanup
      && (s'.messages[n].slot.transferred <==> other in s'.transfers)
  {
    if s.messages[m].slot.state == Some(other) {
      assert Carries(s, m, other);
    }
  }

  lemma DischargedInv(s: State, p: nat, o: Outcome)
    requires Inv(s) && p in s.promises && !o.Cancelled?
    ensures Inv(Discharged(s, p, o))
  {
    var s' := Discharged(s, p, o);
    assert forall n, other :: Carries(s', n, other) <==> Carries(s, n, other);
    forall other | other in s'.outcomes
      ensures Law(s', other)
    {
      PromiseGone(s.promises, p, other);
      assert Carried(s', other) == Carried(s, other);
    }
  }

  lemma MovePromiseInv(s: State, q: nat, p: nat)
    requires Inv(s) && Enabled(s, MovePromise(q, p))
    ensures Inv(Apply(s, MovePromise(q, p)))
  {
    var s' := Apply(s, MovePromise(q, p));
    assert forall n, other :: Carries(s', n, other) <==> Carries(s, n, other);
    forall other | other in s'.outcomes
      ensures Law(s', other)
    {
      PromiseGone(s.promises, p, other);
      PromiseAdded(s.promises - {p}, q, s.promises[p], other);
      SameLaw(s, s', other);
    }
  }

  /** Every action of any caller, mailbox, turn or promise holder keeps the law of every state. */
  lemma StepInv(s: State, x: Action)
    requires Inv(s) && Enabled(s, x)
    ensures Inv(Apply(s, x))
  {
    match x
    case Make(m, sid) => MakeInv(s, m, sid);
    case MakeBare(m) => BareInv(s, m);
    case MoveConstruct(to, from) => HandedInv(s, to, from, WithCaller);
    case MoveAssign(to, from) => if to != from { MoveAssignInv(s, to, from); }
    case Swap(a, b) => SwapInv(s, a, b);
    case DropUnsent(m) => DestroyedInv(s, m);
    case Refuse(m, _) => DestroyedInv(s, m);
    case Accept(m) => Unmoved(s, Apply(s, x));
    case Bounce(m) => DestroyedInv(s, m);
    case Pop(m) => Unmoved(s, Apply(s, x));
    case TakePromise(m, p) => TakeInv(s, m, p);
    case Transfer(m) => TransferInv(s, m);
    case EndActivation(m) => DestroyedInv(s, m);
    case MovePromise(q, p) => MovePromiseInv(s, q, p);
    case Settle(p, o) => DischargedInv(s, p, o);
    case DropPromise(p) => DischargedInv(s, p, BrokenPipe);
  }

  lemma BareInv(s: State, m: nat)
    requires Inv(s) && Enabled(s, MakeBare(m))
    ensures Inv(Apply(s, MakeBare(m)))
  {
    var s' := Apply(s, MakeBare(m));
    assert forall n, sid :: Carries(s', n, sid) <==> Carries(s, n, sid);
    SameCarriers(s, s');
  }

  lemma {:induction false} RunInv(s: State, actions: seq<Action>)
    requires Inv(s) && IsRun(s, actions)
    ensures Inv(After(s, actions))
    decreases |actions|
  {
    if actions != [] {
      StepInv(s, actions[0]);
      RunInv(Apply(s, actions[0]), actions[1..]);
    }
  }

  // ---------- the theorems ----------

  /** Nobody is left to settle the state. */
  ghost predicate Finished(s: State, sid: nat)
  {
    !Carried(s, sid) && forall p <- s.promises :: s.promises[p] != sid
  }

  lemma NobodyHolds(promises: map<nat, nat>, sid: nat)
    ensures Holding(promises, sid) == 0 <==> forall p <- promises :: promises[p] != sid
  {
    if p :| p in promises && promises[p] == sid {
      assert p in Holders(promises, sid);
    }
  }

  /**
   How often a state is settled once nobody is left to: once for every promise taken, and once more if
   the message died without a transfer. So it is settled exactly once if and only if a promise was
   taken once and the ownership transferred, or neither was done.
   */
  lemma SettledExactly(actions: seq<Action>, sid: nat)
    requires IsRun(Init, actions) && sid in After(Init, actions).outcomes && Finished(After(Init, actions), sid)
    ensures var s := After(Init, actions);
      && |s.outcomes[sid]| == Takes(s, sid) + One(sid !in s.transfers)
      && (|s.outcomes[sid]| == 1 <==>
            (Takes(s, sid) == 1 && sid in s.transfers) || (Takes(s, sid) == 0 && sid !in s.transfers))
  {
    RunInv(Init, actions);
    NobodyHolds(After(Init, actions).promises, sid);
  }

  /** Taking and transferring go together, as in `dispatch`. */
  predicate Balanced(s: State, sid: nat)
  {
    Takes(s, sid) == One(sid in s.transfers)
  }

  /** A balanced state is settled at most once, and has been exactly when nobody owes it any more. */
  lemma SettledOnce(actions: seq<Action>, sid: nat)
    requires IsRun(Init, actions) && sid in After(Init, actions).outcomes && Balanced(After(Init, actions), sid)
    ensures var s := After(Init, actions);
      && |s.outcomes[sid]| <= 1
      && (|s.outcomes[sid]| == 1 <==>
            (Carried(s, sid) ==> sid in s.transfers) && forall p <- s.promises :: s.promises[p] != sid)
  {
    RunInv(Init, actions);
    NobodyHolds(After(Init, actions).promises, sid);
  }

  /** `dispatch`, in its own order or a router's, balances the slot of a message that still owns it. */
  lemma DispatchBalances(s: State, m: nat, p: nat)
    requires Inv(s) && m in s.messages && Owed(s.messages[m].slot).Some? && p !in s.promises
    requires Balanced(s, s.messages[m].slot.state.value)
    ensures var sid := s.messages[m].slot.state.value;
      var t, u := Apply(s, TakePromise(m, p)), Apply(s, Transfer(m));
      && Enabled(t, Transfer(m)) && Balanced(Apply(t, Transfer(m)), sid)
      && Enabled(u, TakePromise(m, p)) && Apply(u, TakePromise(m, p)) == Apply(t, Transfer(m))
  {
    assert Carries(s, m, s.messages[m].slot.state.value);
  }

  /** When every message is destroyed and every promise gone, every balanced slot has one outcome. */
  lemma AllSettled(actions: seq<Action>)
    requires IsRun(Init, actions)
    requires After(Init, actions).messages == map[] && After(Init, actions).promises == map[]
    ensures var s := After(Init, actions);
      forall sid <- s.outcomes :: |s.outcomes[sid]| == 1 <==> Balanced(s, sid)
  {
    forall sid | sid in After(Init, actions).outcomes
      ensures |After(Init, actions).outcomes[sid]| == 1 <==> Balanced(After(Init, actions), sid)
    {
      SettledExactly(actions, sid);
    }
  }

  /** Refused, bounced, dropped or left undispatched by its activation: the caller sees a cancellation. */
  lemma UndispatchedIsCancelled(actions: seq<Action>, x: Action, m: nat)
    requires IsRun(Init, actions) && Enabled(After(Init, actions), x)
    requires x == Bounce(m) || x == DropUnsent(m) || x == EndActivation(m) || (x.Refuse? && x.m == m)
    ensures var s := After(Init, actions); var debt := Owed(s.messages[m].slot);
      && (debt.Some? && Takes(s, debt.value) == 0 ==>
            debt.value in s.outcomes && Apply(s, x).outcomes == s.outcomes[debt.value := [Cancelled]])
      && (debt.None? ==> Apply(s, x).outcomes == s.outcomes)
  {
    RunInv(Init, actions);
    var s := After(Init, actions);
    var debt := Owed(s.messages[m].slot);
    if debt.Some? {
      assert Carries(s, m, debt.value);
      assert Law(s, debt.value);
      assert [] + [Cancelled] == [Cancelled];
    }
  }

  /** A transferred slot is never cancelled; dispatched, it is settled by its promise alone. */
  lemma DispatchedIsNotCancelled(actions: seq<Action>, sid: nat)
    requires IsRun(Init, actions) && sid in After(Init, actions).transfers
    ensures var s := After(Init, actions);
      && sid in s.outcomes && Cancelled !in s.outcomes[sid]
      && (Takes(s, sid) == 1 ==> |s.outcomes[sid]| == if exists p :: p in s.promises && s.promises[p] == sid then 0 else 1)
  {
    RunInv(Init, actions);
    var s := After(Init, actions);
    assert Law(s, sid);
    NobodyHolds(s.promises, sid);
  }

  /** A promise settles its own slot with what its holder said, or with broken_pipe, and no other slot. */
  lemma PromiseDecides(actions: seq<Action>, p: nat, x: Action)
    requires IsRun(Init, actions) && Enabled(After(Init, actions), x)
    requires x == DropPromise(p) || (x.Settle? && x.p == p)
    ensures var s, t := After(Init, actions), Apply(After(Init, actions), x);
      var sid := s.promises[p];
      && sid in s.outcomes && t.outcomes.Keys == s.outcomes.Keys && p !in t.promises
      && (x.Settle? ==> t.outcomes[sid] == s.outcomes[sid] + [x.o])
      && (x.DropPromise? ==> t.outcomes[sid] == s.outcomes[sid] + [BrokenPipe])
      && forall other <- s.outcomes :: other != sid ==> t.outcomes[other] == s.outcomes[other]
  {
    RunInv(Init, actions);
  }

  // ---------- both failures happen ----------

  lemma {:induction false} Then(s: State, actions: seq<Action>, x: Action)
    requires IsRun(s, actions) && Enabled(After(s, actions), x)
    ensures IsRun(s, actions + [x]) && After(s, actions + [x]) == Apply(After(s, actions), x)
    decreases |actions|
  {
    if actions == [] {
      assert ([] + [x])[1..] == [];
    } else {
      assert (actions + [x])[1..] == actions[1..] + [x];
      Then(Apply(s, actions[0]), actions[1..], x);
    }
  }

  /** A message delivered to its actor, which has not touched its slot yet. */
  lemma Delivered(sid: nat) returns (actions: seq<Action>)
    ensures IsRun(Init, actions)
    ensures After(Init, actions)
         == State(map[0 := Msg(Slot(Some(sid), true, false), InTurn)], map[], map[sid := []], map[sid := 0], {})
  {
    Then(Init, [], Make(0, sid));
    Then(Init, [] + [Make(0, sid)], Accept(0));
    Then(Init, [] + [Make(0, sid)] + [Accept(0)], Pop(0));
    actions := [] + [Make(0, sid)] + [Accept(0)] + [Pop(0)];
  }

  /** Taken and not transferred: the promise settles the slot and then the message's destructor does. */
  lemma TakenSettlesTwice(sid: nat, v: int) returns (actions: seq<Action>)
    ensures IsRun(Init, actions) && Finished(After(Init, actions), sid)
    ensures After(Init, actions).outcomes == map[sid := [Value(v), Cancelled]]
  {
    actions := Delivered(sid);
    Then(Init, actions, TakePromise(0, 0));
    actions := actions + [TakePromise(0, 0)];
    assert After(Init, actions).promises == map[0 := sid];
    Then(Init, actions, Settle(0, Value(v)));
    actions := actions + [Settle(0, Value(v))];
    assert [] + [Value(v)] == [Value(v)] && [Value(v)] + [Cancelled] == [Value(v), Cancelled];
    assert After(Init, actions).outcomes == map[sid := [Value(v)]];
    Then(Init, actions, EndActivation(0));
    actions := actions + [EndActivation(0)];
    assert After(Init, actions).messages == map[] && After(Init, actions).promises == map[];
  }

  /** Transferred and never taken: the slot is never settled, and whoever waits on it waits for ever. */
  lemma TransferredNeverSettles(sid: nat) returns (actions: seq<Action>)
    ensures IsRun(Init, actions) && Finished(After(Init, actions), sid)
    ensures After(Init, actions).outcomes == map[sid := []]
  {
    actions := Delivered(sid);
    Then(Init, actions, Transfer(0));
    actions := actions + [Transfer(0)];
    Then(Init, actions, EndActivation(0));
    actions := actions + [EndActivation(0)];
    assert After(Init, actions).messages == map[];
  }
}
