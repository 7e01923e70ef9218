/**
 The shared state with its flag word, its storage and its error code, and the methods of the two
 sides: the promise, the final awaiter and the message cleanup on one, the future on the other.
 The other side may act before every atomic operation.
 */
module SharedStates {
  import opened FutureMachine
  import opened FutureProofs
  import opened FutureTheorems

  /** An extraction either yields the value or refuses, which aborts the process. */
  datatype Extraction = Extracted(value: int) | Refused

  class SharedState {
    var flags_: bv8
    var value_: Storage
    var error_: ErrorCode
    ghost const exit: Exit
    ghost const outcome: Outcome
    ghost var freed: nat
    ghost var producer: Producer
    ghost var consumer: Consumer
    ghost var taken: seq<int>
    ghost var suspended: bool
    ghost var destroyed: nat
    ghost var trace: seq<Action>

    ghost function Abs(): State
      reads this
    {
      State(flags_, value_, error_, freed, exit, outcome, producer, consumer, taken, suspended, destroyed)
    }

    /** The object is in a state that a run of the machine reaches, namely the run `trace`. */
    ghost predicate Valid()
      reads this
    {
      IsRun(Init(exit, outcome), trace) && After(Init(exit, outcome), trace) == Abs()
    }

    constructor (ghost exit: Exit, ghost outcome: Outcome)
      ensures Valid() && this.exit == exit && this.outcome == outcome && producer.Body? && consumer.Holding?
    {
      flags_, value_, error_ := 0, Empty, NoError;
      this.exit, this.outcome := exit, outcome;
      freed, producer, consumer, taken, suspended, destroyed, trace := 0, Body, Holding, [], false, 0, [];
    }

    /** Any number of actions of the consumer. Callers know only this contract. */
    method ConsumerActs()
      requires Valid()
      modifies this
      ensures Valid() && producer == old(producer) && old(trace) <= trace
    {
    }

    /** Any number of actions of the producer. Callers know only this contract. */
    method ProducerActs()
      requires Valid()
      modifies this
      ensures Valid() && consumer == old(consumer) && old(trace) <= trace
    {
    }

    /** Account for one step: the fields already hold what the action leaves. */
    ghost method Step(before: State, a: Action)
      requires before.exit == exit && before.outcome == outcome
      requires IsRun(Init(exit, outcome), trace) && After(Init(exit, outcome), trace) == before && Enabled(before, a)
      requires var after := Apply(before, a); flags_ == after.flags && value_ == after.stored && error_ == after.error
      modifies this`freed, this`producer, this`consumer, this`taken, this`suspended, this`destroyed, this`trace
      ensures Valid() && Abs() == Apply(before, a) && trace == old(trace) + [a]
    {
      StepKeepsCase(before, a);
      Extend(Init(exit, outcome), trace, a);
      var after := Apply(before, a);
      freed, producer, consumer := after.freed, after.producer, after.consumer;
      taken, suspended, destroyed := after.taken, after.suspended, after.destroyed;
      trace := trace + [a];
    }

    // ---------- the producer ----------

    method SetValue(v: int)
      requires Valid() && producer.Body? && outcome == Value(v)
      modifies this
      ensures Valid() && producer.Suspend? && old(trace) <= trace
    {
      RunInv(exit, outcome, trace);
      assert value_.Empty?;   // no double emplace
      ghost var s := Abs();
      value_ := Holds(v);
      Step(s, Produce);
      PublishResult(VALUE_SET);
    }

    method SetError(e: ErrorCode)
      requires Valid() && producer.Body? && outcome == Error(e)
      modifies this
      ensures Valid() && producer.Suspend? && old(trace) <= trace
    {
      ghost var s := Abs();
      error_ := e;
      Step(s, Produce);
      PublishResult(ERROR_SET);
    }

    method PublishResult(bit: bv8)
      requires Valid() && producer.Publish? && bit == if outcome.Value? then VALUE_SET else ERROR_SET
      modifies this
      ensures Valid() && producer.Suspend? && old(trace) <= trace
    {
      ConsumerActs();
      ghost var s := Abs();
      flags_ := flags_ | bit;
      Step(s, Produce);
    }

    /** True if this call deallocated: the future was already released. */
    method ReleasePromise() returns (deallocated: bool)
      requires Valid() && producer.ReleaseLoad?
      modifies this
      ensures Valid() && old(trace) <= trace
      ensures producer == if deallocated then Left(true) else if exit.Cleanup? then Left(false) else FinalizeLoad
      ensures deallocated ==> freed == 1
    {
      ConsumerActs();
      ghost var s := Abs();
      var bits := PROMISE_RELEASED;
      if !On(flags_, RESULT_SET) {
        error_ := StateNotRecoverable;
        bits := bits | ERROR_SET;
      }
      Step(s, Produce);

      ConsumerActs();
      s := Abs();
      var old_ := flags_;
      flags_ := flags_ | bits;
      assert s.flags | PROMISE_RELEASED | 0 == s.flags | PROMISE_RELEASED;
      assert s.flags | PROMISE_RELEASED | ERROR_SET == s.flags | (PROMISE_RELEASED | ERROR_SET);
      Step(s, Produce);
      deallocated := On(old_, FUTURE_RELEASED);
      if deallocated {
        Deallocate();
      }
    }

    method Deallocate()
      requires Valid() && producer.Free?
      modifies this
      ensures Valid() && producer == Left(true) && freed == 1 && old(trace) <= trace
    {
      RunInv(exit, outcome, trace);
      Step(Abs(), Produce);
    }

    /** False if `future_released` raced in and this call deallocated. */
    method TryCompleteFinalize() returns (alive: bool)
      requires Valid() && producer.FinalizeLoad?
      modifies this
      ensures Valid() && producer == Left(!alive) && old(trace) <= trace
      ensures !alive ==> freed == 1
    {
      ConsumerActs();
      var current := flags_;
      Step(Abs(), Produce);
      var expected := current & !FUTURE_RELEASED;
      var desired := expected & !PROMISE_FINALIZING;
      var ok;
      ok, expected := FinalizeExchange(current, expected, desired);
      if ok { return true; }
      if On(expected, FUTURE_RELEASED) {
        Deallocate();
        return false;
      }
      ClearFinalizing();
      return true;
    }

    /** The strong compare-exchange; on failure `seen` is the word it found. */
    method FinalizeExchange(ghost current: bv8, expected: bv8, desired: bv8) returns (ok: bool, seen: bv8)
      requires Valid() && producer == FinalizeCas(current)
      requires expected == current & !FUTURE_RELEASED && desired == expected & !PROMISE_FINALIZING
      modifies this
      ensures Valid() && old(trace) <= trace
      ensures producer == if ok then Left(false) else if On(seen, FUTURE_RELEASED) then Free else FinalizeClear
    {
      ConsumerActs();
      seen := flags_;
      ok := flags_ == expected;
      ghost var s := Abs();
      if ok {
        flags_ := desired;
        Step(s, Produce);
      } else {
        Step(s, Produce);
      }
    }

    method ClearFinalizing()
      requires Valid() && producer.FinalizeClear?
      modifies this
      ensures Valid() && producer == Left(false) && old(trace) <= trace
    {
      ConsumerActs();
      ghost var s := Abs();
      flags_ := flags_ & !PROMISE_FINALIZING;
      Step(s, Produce);
    }

    /** The exit of a promise, and the steps 2 to 4 of a final awaiter: finalizing before release. */
    method SettleState() returns (alive: bool)
      requires Valid() && producer.Suspend? && !exit.Cleanup?
      modifies this
      ensures Valid() && producer == Left(!alive) && old(trace) <= trace
      ensures alive ==> freed == 0 || consumer.Gone?
    {
      Step(Abs(), Produce);
      ConsumerActs();
      ghost var s := Abs();
      flags_ := flags_ | PROMISE_FINALIZING;
      Step(s, Produce);
      var deallocated := ReleasePromise();
      alive := false;
      if !deallocated {
        alive := TryCompleteFinalize();
      }
      NoUseAfterFree(exit, outcome, trace);
    }

    /** The cleanup of a message whose slot nobody took over. */
    method CleanupSlot()
      requires Valid() && producer.Body? && exit.Cleanup? && outcome == Error(OperationCanceled)
      modifies this
      ensures Valid() && producer.Left? && old(trace) <= trace
      ensures consumer.Gone? || (On(flags_, PROMISE_RELEASED) && On(flags_, ERROR_SET) && error_ == OperationCanceled)
    {
      SetError(OperationCanceled);
      Step(Abs(), Produce);
      var deallocated := ReleasePromise();
      SettledOutcome(exit, outcome, trace);
      RunInv(exit, outcome, trace);
    }

    // ---------- the consumer ----------

    method LoadFlags() returns (bits: bv8)
      requires Valid()
      modifies this
      ensures Valid() && consumer == old(consumer) && old(trace) <= trace && bits == flags_
    {
      ProducerActs();
      bits := flags_;
    }

    /** `take_ready`: refuse without a result or with an error, else move the value out and release. */
    method TakeReady() returns (r: Extraction)
      requires Valid() && consumer.Holding?
      modifies this
      ensures Valid() && old(trace) <= trace
      ensures r.Extracted? ==> outcome == Value(r.value) && taken == [r.value] && consumer.Gone?
      ensures old(On(flags_, VALUE_SET)) ==> r.Extracted?
      ensures old(On(flags_, PROMISE_RELEASED)) && outcome.Value? ==> r.Extracted?
    {
      SettledOutcome(exit, outcome, trace);
      ghost var begun := trace;
      var bits := LoadFlags();
      ExtensionKeepsValue(exit, outcome, begun, trace);
      RunInv(exit, outcome, trace);
      assert On(bits, VALUE_SET) ==> On(bits, RESULT_SET);
      if !On(bits, RESULT_SET) { return Refused; }
      Step(Abs(), Take);
      r := TakeChecked();
    }

    /** With a result seen: refuse an error, else move the value out and release. */
    method TakeChecked() returns (r: Extraction)
      requires Valid() && consumer.CheckError?
      modifies this
      ensures Valid() && old(trace) <= trace
      ensures r.Extracted? ==> outcome == Value(r.value) && taken == [r.value] && consumer.Gone?
      ensures outcome.Value? ==> r.Extracted?
    {
      var bits := LoadFlags();
      RunInv(exit, outcome, trace);
      if On(bits, ERROR_SET) { return Refused; }
      Step(Abs(), Next);
      var v := TakeValue();
      ghost var reclaimed := Release();
      r := Extracted(v);
    }

    method TakeValue() returns (v: int)
      requires Valid() && consumer.Consume?
      modifies this
      ensures Valid() && consumer.Reclaim? && old(trace) <= trace && outcome == Value(v) && taken == [v]
    {
      ProducerActs();
      ghost var s := Abs();
      flags_ := flags_ | CONSUMED;
      Step(s, Next);
      ProducerActs();
      RunInv(exit, outcome, trace);
      TakesTheProducedValue(exit, outcome, trace);
      s := Abs();
      v := value_.value;
      value_ := Empty;
      Step(s, Next);
      TakesTheProducedValue(exit, outcome, trace);
    }

    /**
     `release`: reclaim a finished frame, then give the state up. The frame is destroyed if it was at its
     final suspend point, before the flag is set; the state is freed if the producer has left it alive.
     */
    method Release() returns (ghost reclaimed: bool)
      requires Valid() && consumer.Reclaim?
      modifies this
      ensures Valid() && consumer.Gone? && old(trace) <= trace && taken == old(taken)
      ensures old(suspended) ==> reclaimed
      ensures ReclaimedAt(old(trace), trace, reclaimed)
      ensures freed == if producer == Left(false) then 1 else 0
    {
      ghost var begun := trace;
      RunInv(exit, outcome, begun);
      ProducerKeepsTaken();
      ExtensionKeepsSuspended(Init(exit, outcome), begun, trace);
      reclaimed := suspended;
      ghost var look := trace;
      Step(Abs(), Next);
      GiveUp();
      assert trace[..|look|] == look;
      assert LooksAt(trace, |look|, reclaimed);
    }

    /** The look at the handle is the first thing done, and it destroyed the frame if it was done. */
    ghost predicate ReclaimedAt(begun: seq<Action>, now: seq<Action>, reclaimed: bool)
    {
      exists i :: |begun| <= i < |now| && LooksAt(now, i, reclaimed)
    }

    ghost predicate LooksAt(now: seq<Action>, i: nat, reclaimed: bool)
    {
      && i < |now| && now[i] == Next && IsRun(Init(exit, outcome), now[..i])
      && After(Init(exit, outcome), now[..i]).consumer.Reclaim?
      && After(Init(exit, outcome), now[..i]).suspended == reclaimed
    }

    /** `release_future`: the last one out deallocates. */
    method GiveUp()
      requires Valid() && consumer.ReleaseFuture?
      modifies this
      ensures Valid() && consumer.Gone? && old(trace) <= trace && taken == old(taken)
      ensures freed == if producer == Left(false) then 1 else 0
    {
      ProducerKeepsTaken();
      RunInv(exit, outcome, trace);
      LastOneOut(Abs());
      var old_ := SetReleased();
      if On(old_, PROMISE_RELEASED) && !On(old_, PROMISE_FINALIZING) {
        Step(Abs(), Next);
      }
    }

    /** The fetch_or; the last one out is told by the flags before it. */
    method SetReleased() returns (before: bv8)
      requires Valid() && consumer.ReleaseFuture?
      modifies this`flags_, this`consumer, this`freed, this`producer, this`taken, this`suspended, this`destroyed, this`trace
      ensures Valid() && old(trace) <= trace && taken == old(taken)
      ensures before == old(flags_) && producer == old(producer) && freed == old(freed)
      ensures consumer == if On(before, PROMISE_RELEASED) && !On(before, PROMISE_FINALIZING) then FreeState else Gone
    {
      ghost var s := Abs();
      before := flags_;
      flags_ := flags_ | FUTURE_RELEASED;
      Step(s, Next);
    }

    /** Actions of the producer do not touch what the consumer has taken. */
    method ProducerKeepsTaken()
      requires Valid()
      modifies this
      ensures Valid() && consumer == old(consumer) && taken == old(taken) && old(trace) <= trace
    {
    }
  }
}
