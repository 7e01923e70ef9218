/** The promises of the shared state, over every interleaving of one producer and one consumer. */
module FutureTheorems {
  import opened FutureMachine
  import opened FutureProofs

  /** The extraction predicate: a value is set, no error is, and nobody took it. */
  predicate HoldsValue(flags: bv8)
  {
    flags & (VALUE_SET | ERROR_SET | CONSUMED) == VALUE_SET
  }

  // ---------- the outcome ----------

  /**
   Ready means settled: once `promise_released` is set exactly one of the two result bits is, and
   they tell which outcome the producer left; a death without one reads `state_not_recoverable`.
   */
  lemma SettledOutcome(exit: Exit, outcome: Outcome, actions: seq<Action>)
    requires IsRun(Init(exit, outcome), actions)
    ensures var s := After(Init(exit, outcome), actions);
            On(s.flags, PROMISE_RELEASED) ==>
              && (On(s.flags, VALUE_SET) <==> outcome.Value?)
              && (On(s.flags, ERROR_SET) <==> !outcome.Value?)
              && (outcome.Error? ==> s.error == outcome.e)
              && (outcome.Nothing? ==> s.error == StateNotRecoverable)
  {
    RunInv(exit, outcome, actions);
  }

  /** Every flag but `promise_finalizing` stays set once it is set. */
  lemma FlagsOnlyGrow(exit: Exit, outcome: Outcome, actions: seq<Action>, a: Action)
    requires IsRun(Init(exit, outcome), actions) && Enabled(After(Init(exit, outcome), actions), a)
    ensures var s := After(Init(exit, outcome), actions);
            s.flags & !Apply(s, a).flags & !PROMISE_FINALIZING == 0
  {
    RunInv(exit, outcome, actions);
    StepKeepsFlags(After(Init(exit, outcome), actions), a);
  }

  lemma StepKeepsFlags(s: State, a: Action)
    requires Enabled(s, a)
    ensures s.flags & !Apply(s, a).flags & !PROMISE_FINALIZING == 0
  {
    if a.Produce? {
      ProducerKeepsFlags(s);
    } else if a.Next? {
      Raised(s.flags, if s.consumer.Consume? then CONSUMED else if s.consumer.ReleaseFuture? then FUTURE_RELEASED else 0, 0);
    } else {
      Raised(s.flags, 0, 0);
    }
  }

  lemma ProducerKeepsFlags(s: State)
    requires !s.producer.Left?
    ensures s.flags & !ProducerStep(s).flags & !PROMISE_FINALIZING == 0
  {
    var f, g := s.flags, ProducerStep(s).flags;
    match s.producer
    case Publish => Raised(f, if s.outcome.Value? then VALUE_SET else ERROR_SET, 0);
    case Finalizing => Raised(f, PROMISE_FINALIZING, 0);
    case Release(repair) => Raised(f, PROMISE_RELEASED, if repair then ERROR_SET else 0);
    case FinalizeCas(current) => if g == f { Raised(f, 0, 0); } else { Cleared(f); }
    case FinalizeClear => Cleared(f);
    case _ => Raised(f, 0, 0);
  }

  lemma Raised(f: bv8, x: bv8, y: bv8)
    ensures f & !(f | x | y) & !PROMISE_FINALIZING == 0
    ensures f | x | 0 == f | x && f | 0 == f
  {
  }

  lemma Cleared(f: bv8)
    ensures f & !(f & !PROMISE_FINALIZING) & !PROMISE_FINALIZING == 0
  {
  }

  /** What a consumer takes is the producer's value, at most once, and a successful check never leads to a refusal. */
  lemma TakesTheProducedValue(exit: Exit, outcome: Outcome, actions: seq<Action>)
    requires IsRun(Init(exit, outcome), actions)
    ensures var s := After(Init(exit, outcome), actions);
            && (s.taken == [] || (outcome.Value? && s.taken == [outcome.v]))
            && (s.consumer.TakeStorage? || s.consumer.Consume? ==> Enabled(s, Next) && outcome.Value? && s.stored == Holds(outcome.v))
            && (HoldsValue(s.flags) ==> outcome.Value? && s.stored == Holds(outcome.v))
            && (On(s.flags, PROMISE_RELEASED) && !On(s.flags, ERROR_SET) && !On(s.flags, CONSUMED) ==> HoldsValue(s.flags))
  {
    RunInv(exit, outcome, actions);
  }

  lemma {:induction false} ExtensionKeepsValue(exit: Exit, outcome: Outcome, before: seq<Action>, after: seq<Action>)
    requires IsRun(Init(exit, outcome), after) && before <= after && IsRun(Init(exit, outcome), before)
    ensures On(After(Init(exit, outcome), before).flags, VALUE_SET) ==> On(After(Init(exit, outcome), after).flags, VALUE_SET)
    decreases |after|
  {
    if before != after {
      var n := |after| - 1;
      assert before <= after[..n];
      ExtensionKeepsValue(exit, outcome, before, after[..n]);
      FlagsOnlyGrow(exit, outcome, after[..n], after[n]);
      FlagKept(After(Init(exit, outcome), after[..n]).flags, After(Init(exit, outcome), after).flags);
    }
  }

  lemma {:induction false} ExtensionKeepsSuspended(s: State, before: seq<Action>, after: seq<Action>)
    requires IsRun(s, after) && before <= after && IsRun(s, before)
    ensures After(s, before).suspended && s.exit.FinalAwaiter? ==> After(s, after).suspended
    ensures After(s, after).exit == s.exit
    decreases |after|
  {
    if after != [] {
      var n := |after| - 1;
      StepKeepsCase(After(s, after[..n]), after[n]);
      if before != after {
        assert before <= after[..n];
        ExtensionKeepsSuspended(s, before, after[..n]);
      } else {
        ExtensionKeepsSuspended(s, after[..n], after[..n]);
      }
    }
  }

  lemma FlagKept(f: bv8, g: bv8)
    requires f & !g & !PROMISE_FINALIZING == 0
    ensures On(f, VALUE_SET) ==> On(g, VALUE_SET)
  {
  }

  // ---------- last one out ----------

  /**
   The state is freed at most once, and while either side still has a step to take it is not freed:
   nobody touches it afterwards.
   */
  lemma NoUseAfterFree(exit: Exit, outcome: Outcome, actions: seq<Action>)
    requires IsRun(Init(exit, outcome), actions)
    ensures var s := After(Init(exit, outcome), actions);
            s.freed <= 1 && (s.freed == 1 ==> Completed(s))
  {
    RunInv(exit, outcome, actions);
  }

  ghost function StateBefore(s: State, actions: seq<Action>, i: nat): State
    requires IsRun(s, actions) && i <= |actions|
  {
    PrefixIsRun(s, actions, i);
    After(s, actions[..i])
  }

  /** Action `i` sets `consumed` between the load and the compare-exchange of try_complete_finalize. */
  ghost predicate ConsumesAt(s: State, actions: seq<Action>, i: nat)
    requires IsRun(s, actions) && i < |actions|
  {
    var b := StateBefore(s, actions, i);
    b.producer.FinalizeCas? && b.consumer.Consume? && actions[i].Next?
  }

  /** Action `i` sets `future_released` between the failed exchange and the clearing of finalizing. */
  ghost predicate ReleasesAt(s: State, actions: seq<Action>, i: nat)
    requires IsRun(s, actions) && i < |actions|
  {
    var b := StateBefore(s, actions, i);
    b.producer.FinalizeClear? && b.consumer.ReleaseFuture? && actions[i].Next?
  }

  ghost predicate ConsumedInWindow(s: State, actions: seq<Action>)
    requires IsRun(s, actions)
  {
    exists i :: 0 <= i < |actions| && ConsumesAt(s, actions, i)
  }

  ghost predicate ReleasedInWindow(s: State, actions: seq<Action>)
    requires IsRun(s, actions)
  {
    exists i :: 0 <= i < |actions| && ReleasesAt(s, actions, i)
  }

  lemma BeforePrefix(s: State, actions: seq<Action>, i: nat)
    requires IsRun(s, actions) && i < |actions| - 1
    ensures IsRun(s, actions[..|actions| - 1])
    ensures StateBefore(s, actions[..|actions| - 1], i) == StateBefore(s, actions, i)
  {
    assert actions[..|actions| - 1][..i] == actions[..i];
  }

  // The two windows of a run, from those of the run without its last action.
  lemma WindowsStep(s: State, actions: seq<Action>)
    requires IsRun(s, actions) && actions != []
    ensures var n := |actions| - 1;
            && (ConsumedInWindow(s, actions) <==> ConsumedInWindow(s, actions[..n]) || ConsumesAt(s, actions, n))
            && (ReleasedInWindow(s, actions) <==> ReleasedInWindow(s, actions[..n]) || ReleasesAt(s, actions, n))
  {
    ConsumedStep(s, actions);
    ReleasedStep(s, actions);
  }

  lemma ConsumedStep(s: State, actions: seq<Action>)
    requires IsRun(s, actions) && actions != []
    ensures var n := |actions| - 1;
            ConsumedInWindow(s, actions) <==> ConsumedInWindow(s, actions[..n]) || ConsumesAt(s, actions, n)
  {
    var n := |actions| - 1;
    forall i | 0 <= i < n
      ensures ConsumesAt(s, actions, i) <==> ConsumesAt(s, actions[..n], i)
    {
      BeforePrefix(s, actions, i);
    }
  }

  lemma ReleasedStep(s: State, actions: seq<Action>)
    requires IsRun(s, actions) && actions != []
    ensures var n := |actions| - 1;
            ReleasedInWindow(s, actions) <==> ReleasedInWindow(s, actions[..n]) || ReleasesAt(s, actions, n)
  {
    var n := |actions| - 1;
    forall i | 0 <= i < n
      ensures ReleasesAt(s, actions, i) <==> ReleasesAt(s, actions[..n], i)
    {
      BeforePrefix(s, actions, i);
    }
  }

  /** How the windows show in the state. */
  ghost predicate WindowInv(s: State, consumed: bool, released: bool)
  {
    && (s.producer.FinalizeCas? && On(s.flags, CONSUMED) && !On(s.producer.current, CONSUMED) ==> consumed)
    && (s.producer.FinalizeClear? ==> consumed)
    && (released ==> consumed && s.consumer.Gone? && (s.producer.FinalizeClear? || s.producer == Left(false)) && s.freed == 0)
    && (s.producer.FinalizeClear? && s.consumer.Gone? ==> released)
    && (Completed(s) && s.freed == 0 ==> released)
  }

  lemma {:induction false} RunWindows(exit: Exit, outcome: Outcome, actions: seq<Action>)
    requires IsRun(Init(exit, outcome), actions)
    ensures var s := Init(exit, outcome);
            WindowInv(After(s, actions), ConsumedInWindow(s, actions), ReleasedInWindow(s, actions))
    decreases |actions|
  {
    var s := Init(exit, outcome);
    if actions != [] {
      var n := |actions| - 1;
      RunInv(exit, outcome, actions[..n]);
      RunWindows(exit, outcome, actions[..n]);
      WindowsStep(s, actions);
      WindowStep(After(s, actions[..n]), actions[n],
                 ConsumedInWindow(s, actions[..n]), ReleasedInWindow(s, actions[..n]));
    }
  }

  lemma WindowStep(s: State, a: Action, consumed: bool, released: bool)
    requires Inv(s) && Enabled(s, a) && WindowInv(s, consumed, released)
    ensures WindowInv(Apply(s, a),
                      consumed || (s.producer.FinalizeCas? && s.consumer.Consume? && a.Next?),
                      released || (s.producer.FinalizeClear? && s.consumer.ReleaseFuture? && a.Next?))
  {
    StepInv(s, a);
  }

  /**
   Who leaks: a completed run leaves the state unfreed exactly when `consumed` landed between the
   load and the exchange of try_complete_finalize and `future_released` between that failed
   exchange and the clearing of `promise_finalizing`. Every other completed run frees it once.
   */
  lemma LeakExactly(exit: Exit, outcome: Outcome, actions: seq<Action>)
    requires IsRun(Init(exit, outcome), actions)
    requires Completed(After(Init(exit, outcome), actions))
    ensures var s := Init(exit, outcome);
            && After(s, actions).freed == (if ConsumedInWindow(s, actions) && ReleasedInWindow(s, actions) then 0 else 1)
            && (exit.Cleanup? ==> After(s, actions).freed == 1)
  {
    RunInv(exit, outcome, actions);
    RunWindows(exit, outcome, actions);
    if exit.Cleanup? {
      CleanupHasNoWindow(outcome, actions);
    }
  }

  /** The cleanup of a refused message never finalizes, so it has no window. */
  lemma CleanupHasNoWindow(outcome: Outcome, actions: seq<Action>)
    requires IsRun(Init(Cleanup, outcome), actions)
    ensures !ReleasedInWindow(Init(Cleanup, outcome), actions)
  {
    var s := Init(Cleanup, outcome);
    forall i | 0 <= i < |actions| ensures !ReleasesAt(s, actions, i) {
      PrefixIsRun(s, actions, i);
      RunInv(Cleanup, outcome, actions[..i]);
    }
  }

  // A run one action longer.
  lemma Extend(s: State, actions: seq<Action>, a: Action)
    requires IsRun(s, actions) && Enabled(After(s, actions), a)
    ensures IsRun(s, actions + [a]) && After(s, actions + [a]) == Apply(After(s, actions), a)
  {
    assert (actions + [a])[..|actions|] == actions;
  }

  lemma {:induction false} ExtendAll(s: State, actions: seq<Action>, more: seq<Action>, to: State)
    requires IsRun(s, actions) && Follows(After(s, actions), more, to)
    ensures IsRun(s, actions + more) && After(s, actions + more) == to
    decreases |more|
  {
    if more == [] {
      assert actions + more == actions;
    } else {
      var longer := actions + [more[0]];
      Extend(s, actions, more[0]);
      assert Follows(After(s, longer), more[1..], to);
      ExtendAll(s, longer, more[1..], to);
      assert longer + more[1..] == actions + more;
    }
  }

  /** Running `more` from `s` ends in `to`. */
  predicate Follows(s: State, more: seq<Action>, to: State)
    decreases |more|
  {
    if more == [] then s == to else Enabled(s, more[0]) && Follows(Apply(s, more[0]), more[1..], to)
  }

  /** The leak happens: a consumer that takes and releases while the producer finalizes. */
  lemma LeakHappens(v: int) returns (actions: seq<Action>)
    ensures var s := Init(Settle, Value(v));
            && IsRun(s, actions)
            && Completed(After(s, actions))
            && After(s, actions).freed == 0
            && After(s, actions).taken == [v]
  {
    var s := Init(Settle, Value(v));
    var write := [Produce, Produce, Take, Next];
    var written := s.(flags := VALUE_SET, stored := Holds(v), producer := Suspend, consumer := Consume);
    assert Follows(s, write, written);
    var release := [Produce, Produce, Produce, Produce, Produce];
    var cas := VALUE_SET | PROMISE_FINALIZING | PROMISE_RELEASED;
    var released := written.(flags := cas, producer := FinalizeCas(cas));
    assert Follows(written, release, released);
    var race := [Next, Produce, Next, Next, Next, Produce];
    var end := released.(flags := VALUE_SET | PROMISE_RELEASED | CONSUMED | FUTURE_RELEASED, stored := Empty,
                         taken := [v], producer := Left(false), consumer := Gone);
    assert Follows(released, race, end);
    ExtendAll(s, [], write, written);
    ExtendAll(s, [] + write, release, released);
    ExtendAll(s, [] + write + release, race, end);
    actions := [] + write + release + race;
  }
}
