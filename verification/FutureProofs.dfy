/** What holds of a shared state in every run: its outcome, its memory, the producing frame. */
module FutureProofs {
  import opened FutureMachine

  // ---------- the invariant ----------

  function Rank(p: Producer): int
  {
    match p
    case Body => 0 case Publish => 1 case Suspend => 2 case Finalizing => 3 case ReleaseLoad => 4
    case Release(_) => 5 case FinalizeLoad => 6 case FinalizeCas(_) => 7 case FinalizeClear => 8
    case Free => 9 case Left(_) => 10
  }

  predicate Produced(s: State) { Rank(s.producer) >= 2 }

  predicate Released(s: State) { Rank(s.producer) >= 6 }

  /** Each flag is set exactly when the side that sets it has passed its step. */
  predicate FlagInv(s: State)
  {
    && (On(s.flags, VALUE_SET) <==> s.outcome.Value? && Produced(s))
    && (On(s.flags, ERROR_SET) <==> (s.outcome.Error? && Produced(s)) || (s.outcome.Nothing? && Released(s)))
    && (On(s.flags, CONSUMED) <==> s.consumer.TakeStorage? || s.taken != [])
    && (On(s.flags, PROMISE_RELEASED) <==> Released(s))
    && (On(s.flags, FUTURE_RELEASED) <==> s.consumer.FreeState? || s.consumer.Gone?)
    && (On(s.flags, PROMISE_FINALIZING) <==> !s.exit.Cleanup? && Rank(s.producer) >= 4 && s.producer != Left(false))
    && s.flags & 0xC0 == 0
  }

  predicate PcInv(s: State)
  {
    && (s.exit.Cleanup? ==> !s.producer.Finalizing? && !s.producer.FinalizeLoad? && !s.producer.FinalizeCas? && !s.producer.FinalizeClear?)
    && (s.producer.Publish? ==> !s.outcome.Nothing?)
    && (s.producer.Release? ==> (s.producer.repair <==> s.outcome.Nothing?))
    && (s.producer.FinalizeCas? ==>
          var c := s.producer.current;
          && On(c, PROMISE_RELEASED) && On(c, PROMISE_FINALIZING)
          && c & !s.flags == 0
          && s.flags & !c & !(CONSUMED | FUTURE_RELEASED) == 0)
    && (s.producer.FinalizeClear? ==> On(s.flags, CONSUMED))
    && (s.suspended <==> s.exit.FinalAwaiter? && Rank(s.producer) >= 3)
    && |s.taken| <= 1
  }

  /** The value in the storage and the error code are the ones the producer's outcome calls for. */
  predicate OutcomeInv(s: State)
  {
    && (s.producer.Body? ==> s.stored.Empty?)
    && (s.stored.Holds? ==> s.outcome == Value(s.stored.value) && s.taken == [])
    && (s.outcome.Value? && Rank(s.producer) >= 1 && s.taken == [] ==> s.stored.Holds?)
    && (s.taken != [] ==> s.outcome == Value(s.taken[0]) && Produced(s))
    && (s.consumer.CheckError? ==> On(s.flags, RESULT_SET))
    && (s.consumer.Consume? || s.consumer.TakeStorage? ==> s.outcome.Value? && Produced(s) && s.taken == [])
    && (s.consumer.Holding? || s.consumer.CheckError? ==> s.taken == [])
    && (s.outcome.Error? && Rank(s.producer) >= 1 ==> s.error == s.outcome.e)
    && (s.outcome.Nothing? && Rank(s.producer) >= 5 ==> s.error == StateNotRecoverable)
  }

  /** Memory: a side about to free finds it unfreed and the other side past its last touch. */
  predicate MemoryInv(s: State)
  {
    && s.freed <= 1
    && (s.producer.Free? ==> s.freed == 0 && s.consumer.Gone?)
    && (s.consumer.FreeState? ==> s.freed == 0 && s.producer == Left(false))
    && (s.freed == 1 ==> Completed(s))
    && (s.producer == Left(true) ==> s.freed == 1)
  }

  predicate Inv(s: State)
  {
    FlagInv(s) && PcInv(s) && OutcomeInv(s) && MemoryInv(s)
  }

  /** At release_future the flags say that the producer is past exactly when it has left the state alive. */
  lemma LastOneOut(s: State)
    requires Inv(s) && s.consumer.ReleaseFuture?
    ensures s.freed == 0
    ensures On(s.flags, PROMISE_RELEASED) && !On(s.flags, PROMISE_FINALIZING) <==> s.producer == Left(false)
  {
  }

  lemma InitInv(exit: Exit, outcome: Outcome)
    ensures Inv(Init(exit, outcome))
  {
  }

  lemma StepKeepsCase(s: State, a: Action)
    requires Enabled(s, a)
    ensures Apply(s, a).exit == s.exit && Apply(s, a).outcome == s.outcome
  {
  }

  lemma StepInv(s: State, a: Action)
    requires Inv(s) && Enabled(s, a)
    ensures Inv(Apply(s, a))
  {
    var r := Rank(s.producer);
    if a.Produce? {
      if r < 2 { ProducerWrites(s); } else if r < 3 { ProducerLeaves(s); } else if r < 4 { ProducerFlags(s); } else if r < 5 { ProducerLooks(s); }
      else if r < 6 { ProducerReleases(s); } else if r < 7 { ProducerReloads(s); } else if r < 8 { ProducerFinalizes(s); } else { ProducerEnds(s); }
    } else if a.Next? {
      if s.consumer.CheckError? || s.consumer.Consume? || s.consumer.TakeStorage? {
        ConsumerTakes(s);
      } else {
        ConsumerLeaves(s);
      }
    }
  }

  lemma ProducerWrites(s: State)
    requires Inv(s) && Rank(s.producer) < 2
    ensures Inv(ProducerStep(s))
  {
  }

  lemma ProducerLeaves(s: State)
    requires Inv(s) && s.producer.Suspend?
    ensures Inv(ProducerStep(s))
  {
  }

  lemma ProducerFlags(s: State)
    requires Inv(s) && s.producer.Finalizing?
    ensures Inv(ProducerStep(s))
  {
  }

  lemma ProducerLooks(s: State)
    requires Inv(s) && s.producer.ReleaseLoad?
    ensures Inv(ProducerStep(s))
  {
  }

  lemma ProducerReleases(s: State)
    requires Inv(s) && s.producer.Release?
    ensures Inv(ProducerStep(s))
  {
  }

  lemma ProducerFinalizes(s: State)
    requires Inv(s) && s.producer.FinalizeCas?
    ensures Inv(ProducerStep(s))
  {
  }

  lemma ProducerReloads(s: State)
    requires Inv(s) && s.producer.FinalizeLoad?
    ensures Inv(ProducerStep(s))
  {
  }

  lemma ProducerEnds(s: State)
    requires Inv(s) && 8 <= Rank(s.producer) < 10
    ensures Inv(ProducerStep(s))
  {
  }

  lemma ConsumerTakes(s: State)
    requires Inv(s) && (s.consumer.CheckError? || s.consumer.Consume? || s.consumer.TakeStorage?)
    requires s.consumer.CheckError? ==> !On(s.flags, ERROR_SET)
    requires s.consumer.TakeStorage? ==> s.stored.Holds?
    ensures Inv(ConsumerStep(s))
  {
  }

  lemma ConsumerLeaves(s: State)
    requires Inv(s) && (s.consumer.Reclaim? || s.consumer.ReleaseFuture? || s.consumer.FreeState?)
    ensures Inv(ConsumerStep(s))
  {
  }

  lemma {:induction false} RunInv(exit: Exit, outcome: Outcome, actions: seq<Action>)
    requires IsRun(Init(exit, outcome), actions)
    ensures var s := After(Init(exit, outcome), actions);
            Inv(s) && s.exit == exit && s.outcome == outcome
    decreases |actions|
  {
    if actions == [] {
      InitInv(exit, outcome);
    } else {
      var n := |actions| - 1;
      RunInv(exit, outcome, actions[..n]);
      var s := After(Init(exit, outcome), actions[..n]);
      StepInv(s, actions[n]);
      StepKeepsCase(s, actions[n]);
      assert After(Init(exit, outcome), actions) == Apply(s, actions[n]);
    }
  }
}
