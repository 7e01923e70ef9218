/** A message's slot fields as an object, and the coroutine that `dispatch` starts. */
module Messages {
  import opened MessageSlots
  import opened Wrappers

  /** The shared states, by what each has been settled with. */
  class States {
    ghost var outcomes: map<nat, seq<Outcome>>

    ghost method Settled(sid: nat, o: Outcome)
      modifies this
      ensures outcomes == With(old(outcomes), Some(sid), o)
    {
      outcomes := With(outcomes, Some(sid), o);
    }
  }

  class Message {
    var result_slot_: Option<nat>
    var cleanup_fn_: bool              // whether it is set
    var ownership_transferred_: bool

    ghost function View(): Slot
      reads this
    {
      Slot(result_slot_, cleanup_fn_, ownership_transferred_)
    }

    constructor ()
      ensures View() == NoSlot
    {
      result_slot_, cleanup_fn_, ownership_transferred_ := None, false, false;
    }

    method InitFutureSlot(sid: nat)
      modifies this
      ensures View() == Slot(Some(sid), true, old(ownership_transferred_))
    {
      result_slot_ := Some(sid);
      cleanup_fn_ := true;
    }

    method TransferOwnership()
      modifies this
      ensures View() == old(View()).(transferred := true) && Owed(View()) == None
    {
      ownership_transferred_ := true;
    }

    /** `~message`, and the first half of a move assignment. */
    method Cleanup(states: States)
      modifies states
      ensures states.outcomes == With(old(states.outcomes), Owed(View()), Cancelled)
    {
      if !ownership_transferred_ && cleanup_fn_ && result_slot_.Some? {
        states.Settled(result_slot_.value, Cancelled);
      }
    }

    /** The move constructor, on a message just made. */
    method MoveFrom(other: Message)
      requires other != this
      modifies this, other
      ensures View() == old(other.View()) && other.View() == NoSlot
    {
      result_slot_, other.result_slot_ := other.result_slot_, None;
      cleanup_fn_, other.cleanup_fn_ := other.cleanup_fn_, false;
      ownership_transferred_, other.ownership_transferred_ := other.ownership_transferred_, false;
    }

    method MoveAssign(other: Message, states: States)
      modifies this, other, states
      ensures other == this ==> View() == old(View()) && states.outcomes == old(states.outcomes)
      ensures other != this ==>
        && View() == old(other.View()) && other.View() == NoSlot
        && states.outcomes == With(old(states.outcomes), Owed(old(View())), Cancelled)
    {
      if this == other { return; }
      Cleanup(states);
      MoveFrom(other);
    }

    method Swap(other: Message)
      modifies this, other
      ensures View() == old(other.View()) && other.View() == old(View())
    {
      result_slot_, other.result_slot_ := other.result_slot_, result_slot_;
      cleanup_fn_, other.cleanup_fn_ := other.cleanup_fn_, cleanup_fn_;
      ownership_transferred_, other.ownership_transferred_ := other.ownership_transferred_, ownership_transferred_;
    }
  }

  /** How the actor's method ends, when the frame that awaits it lives to see it. */
  datatype Ending = Returns(v: int) | Throws | FrameDestroyed

  /**
   `dispatch` from its first line to its end. At the first suspension the delivering turn destroys the
   message; the slot is settled once all the same: with the value the method returned, with its
   exception, or with a broken pipe if the frame that awaits it is destroyed.
   */
  method Dispatch(msg: Message, states: States, ending: Ending, suspends: bool)
    requires Owed(msg.View()).Some? && Owed(msg.View()).value in states.outcomes
    modifies msg, states
    ensures Owed(msg.View()) == None
    ensures states.outcomes.Keys == old(states.outcomes).Keys
    ensures forall sid <- states.outcomes :: Some(sid) != old(Owed(msg.View())) ==>
      states.outcomes[sid] == old(states.outcomes[sid])
    ensures var sid := old(Owed(msg.View())).value;
      && (ending.Returns? ==> states.outcomes[sid] == old(states.outcomes)[sid] + [Value(ending.v)])
      && (ending.Throws? ==> states.outcomes[sid] == old(states.outcomes)[sid] + [Exception])
      && (ending.FrameDestroyed? ==> states.outcomes[sid] == old(states.outcomes)[sid] + [BrokenPipe])
  {
    var result_promise := msg.result_slot_;
    msg.TransferOwnership();
    if suspends {
      msg.Cleanup(states);
    }
    match ending {
      case Returns(v) => states.Settled(result_promise.value, Value(v));
      case Throws => states.Settled(result_promise.value, Exception);
      case FrameDestroyed => states.Settled(result_promise.value, BrokenPipe);
    }
    if !suspends {
      msg.Cleanup(states);
    }
  }
}
