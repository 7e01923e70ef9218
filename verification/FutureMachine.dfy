/**
 One shared state between one producer and one consumer as a state machine, one step per atomic
 operation on its flag word: the outcome, the producer's three exits, polling, taking, releasing,
 and who reclaims the memory and the producing coroutine's frame.
 */
module FutureMachine {

  // ---------- the flag bits ----------

  const VALUE_SET: bv8 := 0x01
  const ERROR_SET: bv8 := 0x02
  const CONSUMED: bv8 := 0x04
  const PROMISE_RELEASED: bv8 := 0x08
  const FUTURE_RELEASED: bv8 := 0x10
  const PROMISE_FINALIZING: bv8 := 0x20
  const RESULT_SET: bv8 := VALUE_SET | ERROR_SET

  predicate On(flags: bv8, bit: bv8)
  {
    flags & bit != 0
  }

  datatype ErrorCode = NoError | UserError | BrokenPipe | OperationCanceled | StateNotRecoverable

  /** What the producer has for the state before it leaves; `Nothing` is a death without an outcome. */
  datatype Outcome = Value(v: int) | Error(e: ErrorCode) | Nothing

  /** The producer's three ways out. */
  datatype Exit = Settle | FinalAwaiter | Cleanup

  datatype Producer =
    | Body                          // outcome not yet written
    | Publish                       // value_ or error_ written, its flag not yet
    | Suspend                       // about to leave; a coroutine reaches its final suspend point
    | Finalizing                    // about to set promise_finalizing
    | ReleaseLoad                   // release_promise: about to look for a result
    | Release(repair: bool)         // release_promise: about to set promise_released
    | FinalizeLoad                  // try_complete_finalize: about to load
    | FinalizeCas(current: bv8)     // ... about to compare-exchange
    | FinalizeClear                 // ... about to clear promise_finalizing
    | Free                          // about to deallocate
    | Left(gone: bool)              // `gone`: this side deallocated

  datatype Consumer =
    | Holding
    | CheckError                    // saw a result; about to look for an error
    | Consume                       // about to set consumed
    | TakeStorage                   // about to move the value out
    | Reclaim                       // release(): about to reclaim a finished frame
    | ReleaseFuture                 // about to set future_released
    | FreeState                     // about to deallocate
    | Gone

  /** result_storage: nothing, or the one value it holds. */
  datatype Storage = Empty | Holds(value: int)

  datatype State = State(
    flags: bv8,
    stored: Storage,
    error: ErrorCode,
    freed: nat,
    exit: Exit,
    outcome: Outcome,
    producer: Producer,
    consumer: Consumer,
    taken: seq<int>,                // auxiliary: what the consumer moved out
    suspended: bool,                // the producing coroutine is at its final suspend point
    destroyed: nat)                 // how often its frame was destroyed

  datatype Action = Produce | Poll | Take | Drop | Next

  function Init(exit: Exit, outcome: Outcome): State
  {
    State(0, Empty, NoError, 0, exit, outcome, Body, Holding, [], false, 0)
  }

  predicate Enabled(s: State, a: Action)
  {
    match a
    case Produce => !s.producer.Left?
    case Poll => s.consumer.Holding?
    // extraction refuses (aborts) without a result
    case Take => s.consumer.Holding? && On(s.flags, RESULT_SET)
    case Drop => s.consumer.Holding?
    // ... and refuses an error or an empty storage; Holding goes on by one of the actions above
    case Next =>
      && !s.consumer.Holding? && !s.consumer.Gone?
      && (s.consumer.CheckError? ==> !On(s.flags, ERROR_SET))
      && (s.consumer.TakeStorage? ==> s.stored.Holds?)
  }

  function Apply(s: State, a: Action): State
    requires Enabled(s, a)
  {
    match a
    case Produce => ProducerStep(s)
    case Poll => s
    case Take => s.(consumer := CheckError)
    case Drop => s.(consumer := Reclaim)
    case Next => ConsumerStep(s)
  }

  function ProducerStep(s: State): State
    requires !s.producer.Left?
  {
    match s.producer
    case Body =>
      (match s.outcome
       case Value(v) => s.(stored := Holds(v), producer := Publish)
       case Error(e) => s.(error := e, producer := Publish)
       case Nothing => s.(producer := Suspend))
    case Publish =>
      s.(flags := s.flags | (if s.outcome.Value? then VALUE_SET else ERROR_SET), producer := Suspend)
    case Suspend =>
      s.(suspended := s.exit.FinalAwaiter?, producer := if s.exit.Cleanup? then ReleaseLoad else Finalizing)
    case Finalizing =>
      s.(flags := s.flags | PROMISE_FINALIZING, producer := ReleaseLoad)
    case ReleaseLoad =>
      if On(s.flags, RESULT_SET) then s.(producer := Release(false))
      else s.(error := StateNotRecoverable, producer := Release(true))
    case Release(repair) =>
      s.(flags := s.flags | PROMISE_RELEASED | (if repair then ERROR_SET else 0),
         producer := if On(s.flags, FUTURE_RELEASED) then Free
                     else if s.exit.Cleanup? then Left(false) else FinalizeLoad)
    case FinalizeLoad => s.(producer := FinalizeCas(s.flags))
    case FinalizeCas(current) =>
      var expected := current & !FUTURE_RELEASED;
      if s.flags == expected then s.(flags := expected & !PROMISE_FINALIZING, producer := Left(false))
      else if On(s.flags, FUTURE_RELEASED) then s.(producer := Free)
      else s.(producer := FinalizeClear)
    case FinalizeClear => s.(flags := s.flags & !PROMISE_FINALIZING, producer := Left(false))
    case Free =>
      // final_awaiter destroys its own frame once the state is gone
      s.(freed := s.freed + 1, producer := Left(true),
         destroyed := s.destroyed + (if s.exit.FinalAwaiter? then 1 else 0))
  }

  function ConsumerStep(s: State): State
    requires !s.consumer.Holding? && !s.consumer.Gone?
    requires s.consumer.TakeStorage? ==> s.stored.Holds?
  {
    match s.consumer
    case CheckError => s.(consumer := Consume)
    case Consume => s.(flags := s.flags | CONSUMED, consumer := TakeStorage)
    case TakeStorage =>
      s.(stored := Empty, taken := s.taken + [s.stored.value], consumer := Reclaim)
    case Reclaim =>
      s.(destroyed := s.destroyed + (if s.suspended then 1 else 0), consumer := ReleaseFuture)
    case ReleaseFuture =>
      s.(flags := s.flags | FUTURE_RELEASED,
         consumer := if On(s.flags, PROMISE_RELEASED) && !On(s.flags, PROMISE_FINALIZING) then FreeState else Gone)
    case FreeState => s.(freed := s.freed + 1, consumer := Gone)
  }

  // ---------- runs ----------

  predicate IsRun(s: State, actions: seq<Action>)
    decreases |actions|, 0
  {
    actions == [] ||
    var n := |actions| - 1;
    IsRun(s, actions[..n]) && Enabled(After(s, actions[..n]), actions[n])
  }

  function After(s: State, actions: seq<Action>): State
    requires IsRun(s, actions)
    decreases |actions|, 1
  {
    if actions == [] then s
    else
      var n := |actions| - 1;
      Apply(After(s, actions[..n]), actions[n])
  }

  lemma {:induction false} PrefixIsRun(s: State, actions: seq<Action>, i: nat)
    requires IsRun(s, actions) && i <= |actions|
    ensures IsRun(s, actions[..i])
  {
    if i == |actions| {
      assert actions[..i] == actions;
    } else {
      var n := |actions| - 1;
      assert actions[..n][..i] == actions[..i];
      PrefixIsRun(s, actions[..n], i);
    }
  }

  /** Both sides have left. */
  predicate Completed(s: State)
  {
    s.producer.Left? && s.consumer.Gone?
  }
}
