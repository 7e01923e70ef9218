/** The inbox as an object: `push_front`, `try_block`, `try_unblock`, `take_head` and `close`. */
module LifoInboxObjects {
  import opened LifoInboxes
  import opened Wrappers

  datatype Attempt<+T> = Finished(value: T) | Contended

  datatype Party = APusher(t: Tid) | TheReader

  /** The action is this party's failed exchange. */
  predicate Fails(s: State, x: Action, who: Party)
  {
    match who
    case APusher(t) => x.Advance? && x.t == t && t in s.pushers && s.pushers[t].Exchange? && s.stack != s.pushers[t].last
    case TheReader =>
      x.Read? && s.reader.Taking? && s.reader.last != s.reader.newHead && (s.stack != s.reader.last || x.spurious)
  }

  /** How many exchanges of the party have failed in a run. */
  function FailuresIn(s: State, actions: seq<Action>, who: Party): nat
    requires IsRun(s, actions)
    decreases |actions|
  {
    if actions == [] then 0
    else One(Fails(s, actions[0], who)) + FailuresIn(Apply(s, actions[0]), actions[1..], who)
  }

  lemma {:induction false} FailuresAppend(s: State, actions: seq<Action>, x: Action, who: Party)
    requires IsRun(s, actions) && Enabled(After(s, actions), x) && IsRun(s, actions + [x])
    ensures FailuresIn(s, actions + [x], who)
         == FailuresIn(s, actions, who) + One(Fails(After(s, actions), x, who))
    decreases |actions|
  {
    if actions == [] {
      assert ([] + [x])[1..] == [];
    } else {
      assert (actions + [x])[1..] == actions[1..] + [x];
      FailuresAppend(Apply(s, actions[0]), actions[1..], x, who);
    }
  }

  class LifoInbox {
    var stack_: Ptr
    var next_: map<Addr, Ptr>          // the `next` of every node in memory
    ghost var view: State
    ghost var trace: seq<Action>

    /** A run of the machine ends in `view`, which the real word and the nodes' links agree with. */
    ghost predicate Valid()
      reads this
    {
      && IsRun(Init(), trace) && After(Init(), trace) == view
      && view.stack == stack_ && view.next == next_
    }

    /** How many exchanges of the party have failed so far. */
    ghost function Failed(who: Party): nat
      requires IsRun(Init(), trace)
      reads this
    {
      FailuresIn(Init(), trace, who)
    }

    constructor ()
      ensures Valid() && view == Init() && trace == []
    {
      stack_, next_ := Null, map[];
      view, trace := Init(), [];
    }

    /** Other pushers and the reader act; the pusher `me` stays where it is. */
    method OthersAct(ghost me: Tid)
      requires Valid() && me in view.pushers
      modifies this
      ensures Valid() && me in view.pushers && view.pushers[me] == old(view.pushers[me]) && old(trace) <= trace
      ensures Failed(APusher(me)) == old(Failed(APusher(me)))
      ensures forall a, m :: old(Holds(me, a, m)) ==> Holds(me, a, m)
    {
    }

    /** The pusher still owns the node `a`, which carries the message `m`. */
    ghost predicate Holds(me: Tid, a: Addr, m: Msg)
      reads this
    {
      me in view.pushers && !view.pushers[me].Returned? && view.pushers[me].a == a && a in view.msg && view.msg[a] == m
    }

    /** The last step of the run pushed `m`, and the object answered `result`. */
    ghost predicate Pushed(m: Msg, result: EnqueueResult)
      reads this
    {
      TookEffect(DoPush(m)) && AbsResult(Abs(After(Init(), trace[..|trace| - 1]))) == result
    }

    /** Pushers act; the reader stays where it is. */
    method PushersAct()
      requires Valid()
      modifies this
      ensures Valid() && view.reader == old(view.reader) && view.walk == old(view.walk) && old(trace) <= trace
      ensures Failed(TheReader) == old(Failed(TheReader)) && view.taken == old(view.taken)
      ensures view.stack == ClosedTag <==> old(view.stack) == ClosedTag
      ensures view.stack == BlockedTag || view.stack == Null ==> view.stack == old(view.stack)
      ensures old(view.stack) == BlockedTag ==> view.stack == BlockedTag || |view.accepted| > |old(view.accepted)|
    {
    }

    /** Account for one step: the fields already hold what the action leaves. */
    ghost method Step(x: Action)
      requires IsRun(Init(), trace) && After(Init(), trace) == view && Enabled(view, x)
      requires Apply(view, x).stack == stack_ && Apply(view, x).next == next_
      modifies this`view, this`trace
      ensures Valid() && view == Apply(old(view), x) && trace == old(trace) + [x]
      ensures forall who :: Failed(who) == old(Failed(who)) + One(Fails(old(view), x, who))
    {
      Extend(Init(), trace, x);
      forall who
        ensures FailuresIn(Init(), trace + [x], who)
             == FailuresIn(Init(), trace, who) + One(Fails(view, x, who))
      {
        FailuresAppend(Init(), trace, x, who);
      }
      view := Apply(view, x);
      trace := trace + [x];
    }

    // ---------- pushers ----------

    /** `retries` bounds the exchanges; the source repeats until one succeeds. */
    method PushFront(ghost me: Tid, a: Addr, ghost m: Msg, retries: nat) returns (r: Attempt<EnqueueResult>)
      requires Valid() && Enabled(view, Push(me, a, m))
      modifies this
      ensures Valid() && old(trace) <= trace
      ensures r.Finished? ==> me in view.pushers && view.pushers[me] == Returned(r.value)
      ensures r.Finished? ==> if r.value == QueueClosed then Abs(view).AClosed? else Pushed(m, r.value)
      ensures r.Contended? ==> Failed(APusher(me)) == old(Failed(APusher(me))) + retries
    {
      Step(Push(me, a, m));
      assert Holds(me, a, m);
      OthersAct(me);
      var last := stack_;
      Step(Advance(me, false));
      for attempts := 0 to retries
        invariant Valid() && old(trace) <= trace && me in view.pushers && view.pushers[me] == Test(a, last)
        invariant Holds(me, a, m)
        invariant Failed(APusher(me)) == old(Failed(APusher(me))) + attempts
      {
        var pushed;
        pushed, last := TryPush(me, a, m, last);
        if pushed.Finished? { return pushed; }
      }
      return Contended;
    }

    /** One round of the loop: give up on a closed inbox, else link the node and exchange. */
    method TryPush(ghost me: Tid, a: Addr, ghost m: Msg, last: Ptr) returns (r: Attempt<EnqueueResult>, seen: Ptr)
      requires Valid() && me in view.pushers && view.pushers[me] == Test(a, last) && Holds(me, a, m)
      modifies this
      ensures Valid() && old(trace) <= trace && me in view.pushers
      ensures view.pushers[me] == if r.Finished? then Returned(r.value) else Test(a, seen)
      ensures r.Contended? ==> Failed(APusher(me)) == old(Failed(APusher(me))) + 1 && Holds(me, a, m)
      ensures r.Finished? ==> if r.value == QueueClosed then Abs(view).AClosed? else Pushed(m, r.value)
    {
      seen := last;
      if last == ClosedTag {
        RunInvFrom(trace);
        Step(Advance(me, false));              // the deleter frees the element
        return Finished(QueueClosed), seen;
      }
      next_ := next_[a := if last != BlockedTag then last else Null];
      Step(Advance(me, false));
      r, seen := TryExchange(me, a, m, last);
    }

    /** The strong compare-exchange that publishes the node. */
    method TryExchange(ghost me: Tid, a: Addr, ghost m: Msg, last: Ptr) returns (r: Attempt<EnqueueResult>, seen: Ptr)
      requires Valid() && me in view.pushers && view.pushers[me] == Exchange(a, last) && Holds(me, a, m)
      modifies this
      ensures Valid() && old(trace) <= trace && me in view.pushers
      ensures view.pushers[me] == if r.Finished? then Returned(r.value) else Test(a, seen)
      ensures r.Contended? ==> Failed(APusher(me)) == old(Failed(APusher(me))) + 1 && Holds(me, a, m)
      ensures r.Finished? ==> r.value != QueueClosed && Pushed(m, r.value)
    {
      OthersAct(me);
      RunInvFrom(trace);
      PushResultRefines(view, me, false);
      seen := stack_;
      if stack_ == last {
        stack_ := Node(a);
        r := Finished(if last == BlockedTag then UnblockedReader else Success);
      } else {
        r := Contended;
      }
      ghost var before := trace;
      Step(Advance(me, false));
      assert trace[..|trace| - 1] == before;
    }

    // ---------- the reader ----------

    method TryBlockInbox() returns (ok: bool)
      requires Valid() && view.reader.Idle?
      modifies this
      ensures Valid() && view.reader.Idle? && old(trace) <= trace
      ensures ok ==> Abs(view).ABlocked? && old(view.stack) != BlockedTag
      ensures !ok ==> view.stack != Null && (view.stack == BlockedTag ==> old(view.stack) == BlockedTag)
    {
      PushersAct();
      ok := stack_ == Null;
      if ok {
        stack_ := BlockedTag;
      }
      Step(TryBlock);
    }

    method TryUnblockInbox() returns (ok: bool)
      requires Valid() && view.reader.Idle?
      modifies this
      ensures Valid() && view.reader.Idle? && old(trace) <= trace
      ensures ok ==> Abs(view) == AOpen([]) && old(view.stack) == BlockedTag
      ensures !ok ==> view.stack != BlockedTag
      ensures !ok && old(view.stack) == BlockedTag ==> |view.accepted| > |old(view.accepted)|
    {
      PushersAct();
      RunInvFrom(trace);
      ok := stack_ == BlockedTag;
      if ok {
        stack_ := Null;
      }
      Step(TryUnblock);
    }

    /**
     Take the whole chain, leaving `newHead`; the result is its top, newest first. An ordinary take finds
     the inbox empty or takes effect with its last step as the object's take; closing, as its close.
     */
    method TakeChain(newHead: Ptr, retries: nat) returns (r: Attempt<Ptr>)
      requires Valid() && Enabled(view, TakeHead(newHead))
      modifies this
      ensures Valid() && old(trace) <= trace
      ensures r.Finished? ==> view.reader == if r.value == Null then Idle else Walking(r.value)
      ensures r.Contended? ==> Failed(TheReader) == old(Failed(TheReader)) + retries
      ensures newHead == Null ==> view.stack != ClosedTag
      ensures r.Finished? && newHead == ClosedTag ==> TookEffect(DoClose) && Abs(view).AClosed?
      ensures r.Finished? && newHead == Null ==>
        if r.value == Null then WasEmpty(trace, |old(trace)|) && view.taken == old(view.taken)
        else TookEffect(DoTake) && Abs(view) == AOpen([])
      ensures r.Finished? ==> |view.taken| == |old(view.taken)| + |view.walk|
    {
      var last := stack_;
      ghost var sofar := trace;
      EmptyNow(trace, |trace|);
      Step(TakeHead(newHead));
      EmptyStays(sofar, trace, |sofar|);
      for attempts := 0 to retries
        invariant Valid() && old(trace) <= trace && view.reader == Taking(newHead, last)
        invariant Failed(TheReader) == old(Failed(TheReader)) + attempts
        invariant last != ClosedTag && view.stack != ClosedTag && view.taken == old(view.taken)
        invariant last == Null ==> WasEmpty(trace, |old(trace)|)
      {
        ghost var sofar := trace;
        var found;
        r, found := TryTake(newHead, last);
        EmptyStays(sofar, trace, |old(trace)|);
        RunInvFrom(trace);
        TagsRefine(view);
        if r.Finished? { return; }
        last := found;
        EmptyNow(trace, |old(trace)|);
      }
      return Contended;
    }

    /** One round of the loop: nothing to take, or one exchange. */
    method TryTake(newHead: Ptr, last: Ptr) returns (r: Attempt<Ptr>, found: Ptr)
      requires Valid() && view.reader == Taking(newHead, last) && last != ClosedTag && view.stack != ClosedTag
      modifies this
      ensures Valid() && old(trace) <= trace
      ensures r.Contended? ==> view.reader == Taking(newHead, found) && found == view.stack != ClosedTag
      ensures Failed(TheReader) == old(Failed(TheReader)) + One(r.Contended?)
      ensures r.Finished? ==> view.reader == if r.value == Null then Idle else Walking(r.value)
      ensures r.Finished? && last == newHead ==> r.value == Null && view.walk == [] && view.stack != ClosedTag
      ensures r.Finished? && last != newHead ==>
        && TookEffect(if newHead == ClosedTag then DoClose else DoTake) && view.stack == newHead
        && (newHead == Null ==> r.value != Null)
      ensures |view.taken| == |old(view.taken)| + (if r.Finished? then |view.walk| else 0)
      ensures r.Contended? || r.value == Null ==> view.taken == old(view.taken)
    {
      PushersAct();
      RunInvFrom(trace);
      found := stack_;
      if last == newHead {
        Step(Read(false));
        return Finished(Null), found;
      }
      var spurious: bool := *;
      ghost var s := view;
      if stack_ == last && !spurious {
        stack_ := newHead;
        TakenAll(s);
        Step(Read(false));
        r := Finished(if last == Null || last == BlockedTag then Null else last);
      } else {
        Step(Read(spurious));
        r := Contended;
      }
    }

    /** The last step of the run took effect on the object as `op`. */
    ghost predicate TookEffect(op: Op)
      reads this
    {
      && trace != [] && IsRun(Init(), trace[..|trace| - 1])
      && Enabled(After(Init(), trace[..|trace| - 1]), trace[|trace| - 1])
      && TakesEffect(After(Init(), trace[..|trace| - 1]), trace[|trace| - 1]) == op
    }

    /** `close`: leave the closed tag and hand every node of the chain to the deleter, newest first. */
    method Close(retries: nat) returns (r: Attempt<seq<Addr>>)
      requires Valid() && view.reader.Idle? && view.stack != ClosedTag
      modifies this
      ensures Valid() && old(trace) <= trace
      ensures r.Finished? ==> view.reader.Idle?
      ensures r.Contended? ==> Failed(TheReader) == old(Failed(TheReader)) + retries
      ensures r.Finished? ==> Abs(view).AClosed? && view.accepted == view.taken
      ensures r.Finished? ==> |r.value| == |view.taken| - |old(view.taken)|
    {
      var head := TakeChain(ClosedTag, retries);
      if head.Contended? { return Contended; }
      if head.value == Null {
        Conserved(trace);
        RunInvFrom(trace);
        return Finished([]);
      }
      var freed := FreeChain(head.value);
      Conserved(trace);
      return Finished(freed);
    }

    method FreeChain(head: Ptr) returns (freed: seq<Addr>)
      requires Valid() && view.reader == Walking(head)
      modifies this
      ensures Valid() && view.reader.Idle? && old(trace) <= trace
      ensures freed == old(view.walk)
      ensures view.taken == old(view.taken) && (view.stack == ClosedTag <==> old(view.stack) == ClosedTag)
    {
      var ptr := head;
      freed := [];
      ghost var all := view.walk;
      while ptr != Null
        invariant Valid() && old(trace) <= trace && view.reader == Walking(ptr)
        invariant freed + view.walk == all
        invariant view.taken == old(view.taken) && (view.stack == ClosedTag <==> old(view.stack) == ClosedTag)
        decreases |view.walk|
      {
        var a;
        a, ptr := FreeNode(ptr);
        freed := freed + [a];
      }
      RunInvFrom(trace);
      Step(Read(false));
    }

    /** Read the link, then give the node away: its memory may be reused at once. */
    method FreeNode(ptr: Ptr) returns (a: Addr, next: Ptr)
      requires Valid() && view.reader == Walking(ptr) && ptr != Null
      modifies this
      ensures Valid() && view.reader == Walking(next) && old(trace) <= trace
      ensures old(view.walk) == [a] + view.walk
      ensures view.taken == old(view.taken) && (view.stack == ClosedTag <==> old(view.stack) == ClosedTag)
    {
      PushersAct();
      RunInvFrom(trace);
      a := ptr.addr;
      next := if a in next_ then next_[a] else Null;
      Step(Read(false));
    }
  }

  /** At some moment since the run had `from` steps the inbox was open and empty. */
  ghost predicate WasEmpty(trace: seq<Action>, from: nat)
  {
    exists i :: from <= i <= |trace| && EmptyAt(trace, i)
  }

  ghost predicate EmptyAt(trace: seq<Action>, i: nat)
  {
    i <= |trace| && IsRun(Init(), trace[..i]) && Abs(After(Init(), trace[..i])) == AOpen([])
  }

  lemma EmptyStays(before: seq<Action>, after: seq<Action>, from: nat)
    requires before <= after
    ensures WasEmpty(before, from) ==> WasEmpty(after, from)
  {
    if WasEmpty(before, from) {
      var i :| from <= i <= |before| && EmptyAt(before, i);
      assert before[..i] == after[..i];
      assert EmptyAt(after, i);
    }
  }

  lemma EmptyNow(trace: seq<Action>, from: nat)
    requires IsRun(Init(), trace) && from <= |trace|
    ensures After(Init(), trace).stack == Null ==> WasEmpty(trace, from)
  {
    RunInvFrom(trace);
    assert trace[..|trace|] == trace;
    if After(Init(), trace).stack == Null {
      assert EmptyAt(trace, |trace|);
    }
  }

  lemma {:induction false} MessagesAll(msg: map<Addr, Msg>, chain: seq<Addr>)
    requires forall i :: 0 <= i < |chain| ==> chain[i] in msg
    ensures |Messages(msg, chain)| == |chain|
  {
    if chain != [] {
      assert forall i :: 0 <= i < |chain[1..]| ==> chain[1..][i] == chain[i + 1];
      MessagesAll(msg, chain[1..]);
    }
  }

  lemma {:induction false} ReversedLength(s: seq<Msg>)
    ensures |Reversed(s)| == |s|
  {
    if s != [] {
      ReversedLength(s[1..]);
    }
  }

  /** Taking accounts for every node of the chain. */
  lemma TakenAll(s: State)
    requires Inv(s) && s.reader.Taking? && s.reader.last != s.reader.newHead && s.stack == s.reader.last
    ensures var s' := AdvanceReader(s, false);
      s'.walk == s.chain && |s'.taken| == |s.taken| + |s.chain|
  {
    MessagesAll(s.msg, s.chain);
    ReversedLength(Messages(s.msg, s.chain));
  }

  lemma RunInvFrom(trace: seq<Action>)
    requires IsRun(Init(), trace)
    ensures Inv(After(Init(), trace))
  {
    RunInv(Init(), trace);
  }

  lemma {:induction false} Extend(s: State, actions: seq<Action>, x: Action)
    requires IsRun(s, actions) && Enabled(After(s, actions), x)
    ensures IsRun(s, actions + [x]) && After(s, actions + [x]) == Apply(After(s, actions), x)
    decreases |actions|
  {
    if actions == [] {
      assert ([] + [x])[1..] == [];
    } else {
      assert (actions + [x])[1..] == actions[1..] + [x];
      Extend(Apply(s, actions[0]), actions[1..], x);
    }
  }
}
