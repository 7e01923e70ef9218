/** How often a producing coroutine's frame is destroyed, for every interleaving with its future's owner. */
module FutureFrames {
  import opened Wrappers
  import opened FutureMachine
  import opened FutureProofs
  import opened FutureTheorems

  /** Action `i` is the look at the handle in `release`, and the coroutine is at its final suspend point. */
  ghost predicate ReclaimsAt(s: State, actions: seq<Action>, i: nat)
    requires IsRun(s, actions) && i < |actions|
  {
    var b := StateBefore(s, actions, i);
    b.consumer.Reclaim? && actions[i].Next? && b.suspended
  }

  /** Action `i` sets `future_released` before the producer has decided that the consumer is alive. */
  ghost predicate LeavesEarlyAt(s: State, actions: seq<Action>, i: nat)
    requires IsRun(s, actions) && i < |actions|
  {
    var b := StateBefore(s, actions, i);
    b.consumer.ReleaseFuture? && actions[i].Next? && Undecided(b.producer)
  }

  /** The producer has not yet taken effect with release_promise's write or the exchange that follows it. */
  predicate Undecided(p: Producer)
  {
    Rank(p) <= 7
  }

  ghost predicate ReclaimedDone(s: State, actions: seq<Action>)
    requires IsRun(s, actions)
  {
    exists i :: 0 <= i < |actions| && ReclaimsAt(s, actions, i)
  }

  ghost predicate LeftEarly(s: State, actions: seq<Action>)
    requires IsRun(s, actions)
  {
    exists i :: 0 <= i < |actions| && LeavesEarlyAt(s, actions, i)
  }

  // The two events of a run, from those of the run without its last action.
  lemma EventsStep(s: State, actions: seq<Action>)
    requires IsRun(s, actions) && actions != []
    ensures var n := |actions| - 1;
            && (ReclaimedDone(s, actions) <==> ReclaimedDone(s, actions[..n]) || ReclaimsAt(s, actions, n))
            && (LeftEarly(s, actions) <==> LeftEarly(s, actions[..n]) || LeavesEarlyAt(s, actions, n))
  {
    ReclaimedStep(s, actions);
    EarlyStep(s, actions);
  }

  lemma ReclaimedStep(s: State, actions: seq<Action>)
    requires IsRun(s, actions) && actions != []
    ensures var n := |actions| - 1;
            ReclaimedDone(s, actions) <==> ReclaimedDone(s, actions[..n]) || ReclaimsAt(s, actions, n)
  {
    var n := |actions| - 1;
    forall i | 0 <= i < n
      ensures ReclaimsAt(s, actions, i) <==> ReclaimsAt(s, actions[..n], i)
    {
      BeforePrefix(s, actions, i);
    }
  }

  lemma EarlyStep(s: State, actions: seq<Action>)
    requires IsRun(s, actions) && actions != []
    ensures var n := |actions| - 1;
            LeftEarly(s, actions) <==> LeftEarly(s, actions[..n]) || LeavesEarlyAt(s, actions, n)
  {
    var n := |actions| - 1;
    forall i | 0 <= i < n
      ensures LeavesEarlyAt(s, actions, i) <==> LeavesEarlyAt(s, actions[..n], i)
    {
      BeforePrefix(s, actions, i);
    }
  }

  /** How the two events show in the state. */
  ghost predicate FrameInv(s: State, reclaimed: bool, early: bool)
  {
    && s.destroyed == One(reclaimed) + One(s.producer == Left(true))
    && (reclaimed ==> s.suspended && (s.consumer.ReleaseFuture? || s.consumer.FreeState? || s.consumer.Gone?))
    && (Undecided(s.producer) ==> (early <==> On(s.flags, FUTURE_RELEASED)))
    && (!Undecided(s.producer) ==> (early <==> s.producer.Free? || s.producer == Left(true)))
    && (early ==> s.consumer.Gone?)
  }

  lemma FrameStep(s: State, a: Action, reclaimed: bool, early: bool)
    requires Inv(s) && Enabled(s, a) && FrameInv(s, reclaimed, early) && s.exit.FinalAwaiter?
    ensures FrameInv(Apply(s, a),
                     reclaimed || (s.consumer.Reclaim? && a.Next? && s.suspended),
                     early || (s.consumer.ReleaseFuture? && a.Next? && Undecided(s.producer)))
  {
    if a.Produce? {
      FrameProduced(s, reclaimed, early);
    } else if a.Next? {
      FrameConsumed(s, reclaimed, early);
    }
  }

  lemma FrameProduced(s: State, reclaimed: bool, early: bool)
    requires Inv(s) && Enabled(s, Produce) && FrameInv(s, reclaimed, early) && s.exit.FinalAwaiter?
    ensures FrameInv(ProducerStep(s), reclaimed, early)
  {
    StepInv(s, Produce);
  }

  lemma FrameConsumed(s: State, reclaimed: bool, early: bool)
    requires Inv(s) && Enabled(s, Next) && FrameInv(s, reclaimed, early) && s.exit.FinalAwaiter?
    ensures FrameInv(ConsumerStep(s),
                     reclaimed || (s.consumer.Reclaim? && s.suspended),
                     early || (s.consumer.ReleaseFuture? && Undecided(s.producer)))
  {
    StepInv(s, Next);
  }

  lemma {:induction false} FrameRun(outcome: Outcome, actions: seq<Action>)
    requires IsRun(Init(FinalAwaiter, outcome), actions)
    ensures var s := Init(FinalAwaiter, outcome);
            FrameInv(After(s, actions), ReclaimedDone(s, actions), LeftEarly(s, actions))
    decreases |actions|
  {
    var s := Init(FinalAwaiter, outcome);
    if actions != [] {
      var n := |actions| - 1;
      RunInv(FinalAwaiter, outcome, actions[..n]);
      FrameRun(outcome, actions[..n]);
      EventsStep(s, actions);
      KeepsExit(s, actions[..n]);
      FrameStep(After(s, actions[..n]), actions[n], ReclaimedDone(s, actions[..n]), LeftEarly(s, actions[..n]));
    }
  }

  lemma {:induction false} KeepsExit(s: State, actions: seq<Action>)
    requires IsRun(s, actions)
    ensures After(s, actions).exit == s.exit
    decreases |actions|
  {
    if actions != [] {
      var n := |actions| - 1;
      KeepsExit(s, actions[..n]);
      StepKeepsCase(After(s, actions[..n]), actions[n]);
    }
  }

  /**
   The frame is destroyed by the future's owner if it finds the coroutine done, and by the coroutine if
   it finds the owner gone. So it is destroyed once exactly when one of the two happens: twice when the
   owner reclaims a done frame and still leaves before the producer decides, never when the owner looks
   too early and leaves too late.
   */
  lemma FrameDestroyedExactly(outcome: Outcome, actions: seq<Action>)
    requires IsRun(Init(FinalAwaiter, outcome), actions) && Completed(After(Init(FinalAwaiter, outcome), actions))
    ensures var s := Init(FinalAwaiter, outcome);
            && After(s, actions).destroyed == One(ReclaimedDone(s, actions)) + One(LeftEarly(s, actions))
            && (After(s, actions).destroyed == 1 <==> (ReclaimedDone(s, actions) <==> !LeftEarly(s, actions)))
  {
    FrameRun(outcome, actions);
  }

  // ---------- on one thread ----------

  /**
   Producer and consumer share a thread, as a method coroutine and its awaiter do: `release` runs
   without interruption, and never while the producer is inside its final awaiter.
   */
  predicate SerialStep(s: State, a: Action)
  {
    && (a.Produce? ==> !s.consumer.ReleaseFuture? && !s.consumer.FreeState?)
    && (a.Next? && (s.consumer.Reclaim? || s.consumer.ReleaseFuture? || s.consumer.FreeState?) ==>
          Rank(s.producer) <= 2 || s.producer.Left?)
  }

  ghost predicate IsSerial(s: State, actions: seq<Action>)
    requires IsRun(s, actions)
  {
    forall i :: 0 <= i < |actions| ==> SerialStep(StateBefore(s, actions, i), actions[i])
  }

  /** Once the owner has looked at the frame, exactly one side is bound to destroy it. */
  ghost predicate SerialInv(s: State, reclaimed: bool, early: bool)
  {
    && (s.consumer.ReleaseFuture? ==> if Rank(s.producer) <= 2 then !reclaimed else reclaimed && s.producer.Left?)
    && (s.consumer.FreeState? || s.consumer.Gone? ==> (reclaimed <==> !early))
    && (reclaimed ==> s.producer.Left?)
  }

  lemma SerialFrameStep(s: State, a: Action, reclaimed: bool, early: bool)
    requires Inv(s) && Enabled(s, a) && FrameInv(s, reclaimed, early) && s.exit.FinalAwaiter?
    requires SerialStep(s, a) && SerialInv(s, reclaimed, early)
    ensures SerialInv(Apply(s, a),
                      reclaimed || (s.consumer.Reclaim? && a.Next? && s.suspended),
                      early || (s.consumer.ReleaseFuture? && a.Next? && Undecided(s.producer)))
  {
  }

  lemma {:induction false} SerialRun(outcome: Outcome, actions: seq<Action>)
    requires IsRun(Init(FinalAwaiter, outcome), actions) && IsSerial(Init(FinalAwaiter, outcome), actions)
    ensures var s := Init(FinalAwaiter, outcome);
            SerialInv(After(s, actions), ReclaimedDone(s, actions), LeftEarly(s, actions))
    decreases |actions|
  {
    var s := Init(FinalAwaiter, outcome);
    if actions != [] {
      var n := |actions| - 1;
      var before := actions[..n];
      SerialPrefix(s, actions);
      SerialRun(outcome, before);
      FrameRun(outcome, before);
      RunInv(FinalAwaiter, outcome, before);
      EventsStep(s, actions);
      KeepsExit(s, before);
      SerialFrameStep(After(s, before), actions[n], ReclaimedDone(s, before), LeftEarly(s, before));
    }
  }

  lemma SerialPrefix(s: State, actions: seq<Action>)
    requires IsRun(s, actions) && IsSerial(s, actions) && actions != []
    ensures var n := |actions| - 1; IsSerial(s, actions[..n]) && SerialStep(After(s, actions[..n]), actions[n])
  {
    var n := |actions| - 1;
    var before := actions[..n];
    forall i | 0 <= i < n ensures SerialStep(StateBefore(s, before, i), before[i]) {
      assert before[..i] == actions[..i];
      assert SerialStep(StateBefore(s, actions, i), actions[i]);
    }
    assert SerialStep(StateBefore(s, actions, n), actions[n]);
  }

  /** On one thread the frame is destroyed exactly once, never before its producer is done, and nothing leaks. */
  lemma FrameDestroyedOnce(outcome: Outcome, actions: seq<Action>)
    requires IsRun(Init(FinalAwaiter, outcome), actions) && IsSerial(Init(FinalAwaiter, outcome), actions)
    ensures var s := After(Init(FinalAwaiter, outcome), actions);
            && s.destroyed <= 1
            && (s.destroyed == 1 ==> s.producer.Left?)
            && (Completed(s) ==> s.destroyed == 1 && s.freed == 1)
  {
    SerialSoFar(outcome, actions);
    if Completed(After(Init(FinalAwaiter, outcome), actions)) {
      SerialAtEnd(outcome, actions);
      SerialHasNoWindow(Init(FinalAwaiter, outcome), actions);
      LeakExactly(FinalAwaiter, outcome, actions);
    }
  }

  lemma SerialSoFar(outcome: Outcome, actions: seq<Action>)
    requires IsRun(Init(FinalAwaiter, outcome), actions) && IsSerial(Init(FinalAwaiter, outcome), actions)
    ensures var s := After(Init(FinalAwaiter, outcome), actions);
            s.destroyed <= 1 && (s.destroyed == 1 ==> s.producer.Left?)
  {
    FrameRun(outcome, actions);
    SerialRun(outcome, actions);
    var s := Init(FinalAwaiter, outcome);
    SerialBound(After(s, actions), ReclaimedDone(s, actions), LeftEarly(s, actions));
  }

  lemma SerialBound(s: State, reclaimed: bool, early: bool)
    requires FrameInv(s, reclaimed, early) && SerialInv(s, reclaimed, early)
    ensures s.destroyed <= 1 && (s.destroyed == 1 ==> s.producer.Left?)
  {
  }

  lemma SerialAtEnd(outcome: Outcome, actions: seq<Action>)
    requires IsRun(Init(FinalAwaiter, outcome), actions) && IsSerial(Init(FinalAwaiter, outcome), actions)
    requires Completed(After(Init(FinalAwaiter, outcome), actions))
    ensures After(Init(FinalAwaiter, outcome), actions).destroyed == 1
  {
    SerialRun(outcome, actions);
    FrameDestroyedExactly(outcome, actions);
  }

  lemma SerialHasNoWindow(s: State, actions: seq<Action>)
    requires IsRun(s, actions) && IsSerial(s, actions)
    ensures !ReleasedInWindow(s, actions)
  {
    forall i | 0 <= i < |actions| ensures !ReleasesAt(s, actions, i) {
      assert SerialStep(StateBefore(s, actions, i), actions[i]);
    }
  }

  // ---------- off it, both failures happen ----------

  /** A release inside the final awaiter destroys the frame a second time. */
  lemma FrameDestroyedTwice(v: int) returns (actions: seq<Action>)
    ensures var s := Init(FinalAwaiter, Value(v));
            IsRun(s, actions) && Completed(After(s, actions)) && After(s, actions).destroyed == 2
  {
    var s := Init(FinalAwaiter, Value(v));
    var finish := [Produce, Produce, Produce];
    var done := s.(flags := VALUE_SET, stored := Holds(v), suspended := true, producer := Finalizing);
    assert Follows(s, finish, done);
    ExtendAll(s, [], finish, done);
    var leave := [Drop, Next, Next];
    var mid := done.(flags := VALUE_SET | FUTURE_RELEASED, consumer := Gone, destroyed := 1);
    assert Follows(done, leave, mid);
    ExtendAll(s, [] + finish, leave, mid);
    var rest := [Produce, Produce, Produce, Produce];
    var end := mid.(flags := VALUE_SET | FUTURE_RELEASED | PROMISE_FINALIZING | PROMISE_RELEASED,
                    producer := Left(true), freed := 1, destroyed := 2);
    assert Follows(mid, rest, end);
    ExtendAll(s, [] + finish + leave, rest, end);
    actions := [] + finish + leave + rest;
  }

  /** An owner that looks before the coroutine is done and leaves after it has decided loses the frame. */
  lemma FrameLeaks(v: int) returns (actions: seq<Action>)
    ensures var s := Init(FinalAwaiter, Value(v));
            && IsRun(s, actions) && Completed(After(s, actions))
            && After(s, actions).destroyed == 0 && After(s, actions).freed == 1
  {
    var s := Init(FinalAwaiter, Value(v));
    var look := [Drop, Next, Produce, Produce, Produce];
    var mid := s.(flags := VALUE_SET, stored := Holds(v), suspended := true,
                  producer := Finalizing, consumer := ReleaseFuture);
    assert Follows(s, look, mid);
    ExtendAll(s, [], look, mid);
    var decide := [Produce, Produce, Produce, Produce, Produce];
    var alive := mid.(flags := VALUE_SET | PROMISE_RELEASED, producer := Left(false));
    assert Follows(mid, decide, alive);
    ExtendAll(s, [] + look, decide, alive);
    var leave := [Next, Next];
    var end := alive.(flags := VALUE_SET | PROMISE_RELEASED | FUTURE_RELEASED, consumer := Gone, freed := 1);
    assert Follows(alive, leave, end);
    ExtendAll(s, [] + look + decide, leave, end);
    actions := [] + look + decide + leave;
  }
}
