/**
 The awaited chain of an actor's behavior: promises linked by raw pointers, each holding a copy of
 the deepest awaited state, kept equal by recursive updates towards the root.
 */
module AwaitChains {
  import opened Wrappers

  /** A shared state as the chain sees it: the continuation slot, whether it is ready, whether its future is gone. */
  class Cell {
    var continuation: Promise?
    var ready: bool                  // promise_released is set in its flags
    ghost var futureReleased: bool

    constructor ()
      ensures continuation == null && !ready && !futureReleased
    {
      continuation, ready, futureReleased := null, false, false;
    }
  }

  /** A future that is gone stays gone. */
  twostate predicate StillReleased(cells: set<object>)
    reads cells
  {
    forall c: Cell :: c in cells && old(c.futureReleased) ==> c.futureReleased
  }

  /** The awaiter part that every coroutine promise inherits. */
  class Promise {
    var awaitedFlags: Cell?          // whose flags_ is pointed at
    var awaitedCont: Cell?           // whose continuation_ is pointed at
    var propagatedToFlags: Promise?  // whose awaited_flags_ receives a copy
    var propagatedToCont: Promise?
    var outerPromise: Promise?       // outer_promise_raw_, always stored with its update function
    const state: Cell?               // the state this coroutine produces; none for the behavior

    constructor (state: Cell?)
      ensures this.state == state && awaitedFlags == awaitedCont == null
      ensures propagatedToFlags == propagatedToCont == outerPromise == null
    {
      this.state := state;
      awaitedFlags, awaitedCont := null, null;
      propagatedToFlags, propagatedToCont, outerPromise := null, null, null;
    }

    /** Copy this promise's awaited pointers to every promise above it. */
    method UpdatePropagatedOuter(ghost chain: seq<Promise>)
      requires chain != [] && Last(chain) == this && LinkedUp(chain) && Distinct(chain)
      modifies AllButLast(chain)`awaitedFlags, AllButLast(chain)`awaitedCont
      ensures awaitedFlags == old(awaitedFlags) && awaitedCont == old(awaitedCont)
      ensures forall p :: p in chain ==> p.awaitedFlags == awaitedFlags && p.awaitedCont == awaitedCont
      decreases |chain|
    {
      ghost var up := AllButLast(chain);
      assert chain == up + [this];
      if up != [] {
        ShorterLinks(chain);
      }
      if propagatedToFlags != null {
        propagatedToFlags.awaitedFlags := awaitedFlags;
      }
      if propagatedToCont != null {
        propagatedToCont.awaitedCont := awaitedCont;
      }
      if outerPromise != null {
        outerPromise.UpdatePropagatedOuter(up);
      }
    }

    /**
     `await_transform` on a future: point at its state, or past it at what its own coroutine waits
     for, and tell every promise above. `inner` is the future's coroutine handle, if it has one.
     */
    method PropagateAwaitedState(cell: Cell, inner: Promise?, hasResult: bool, ghost chain: seq<Promise>)
      requires chain != [] && Last(chain) == this && LinkedUp(chain) && Distinct(chain)
      requires inner !in chain
      modifies chain`awaitedFlags, chain`awaitedCont
      modifies Only(inner)`propagatedToFlags, Only(inner)`propagatedToCont, Only(inner)`outerPromise
      ensures var past := inner != null && inner.awaitedFlags != null;
              forall p :: p in chain ==>
                && p.awaitedFlags == (if hasResult then null else if past then inner.awaitedFlags else cell)
                && p.awaitedCont == (if hasResult then null else if past then inner.awaitedCont else cell)
      ensures inner != null && !hasResult ==> LinksTo(inner, this)
    {
      if hasResult {
        awaitedFlags := null;
        awaitedCont := null;
        UpdatePropagatedOuter(chain);
        return;
      }
      if inner != null {
        inner.propagatedToFlags := this;
        inner.propagatedToCont := this;
        inner.outerPromise := this;
        if inner.awaitedFlags != null {
          awaitedFlags := inner.awaitedFlags;
          awaitedCont := inner.awaitedCont;
        } else {
          awaitedFlags := cell;
          awaitedCont := cell;
        }
      } else {
        awaitedFlags := cell;
        awaitedCont := cell;
      }
      UpdatePropagatedOuter(chain);
    }

    method ClearAwaitedChain(ghost chain: seq<Promise>)
      requires chain != [] && Last(chain) == this && LinkedUp(chain) && Distinct(chain)
      modifies chain`awaitedFlags, chain`awaitedCont
      ensures forall p :: p in chain ==> p.awaitedFlags == null && p.awaitedCont == null
    {
      awaitedFlags := null;
      awaitedCont := null;
      UpdatePropagatedOuter(chain);
    }
  }

  function Last(chain: seq<Promise>): Promise
    requires chain != []
  {
    chain[|chain| - 1]
  }

  function AllButLast(chain: seq<Promise>): seq<Promise>
    requires chain != []
  {
    chain[..|chain| - 1]
  }

  ghost function Only(p: Promise?): set<Promise>
  {
    if p == null then {} else {p}
  }

  ghost function OnlyCell(c: Cell?): set<Cell>
  {
    if c == null then {} else {c}
  }

  /** The promise reports to `outer`, or to nobody. */
  ghost predicate LinksTo(p: Promise, outer: Promise?)
    reads p`outerPromise, p`propagatedToFlags, p`propagatedToCont
  {
    p.outerPromise == outer && p.propagatedToFlags == outer && p.propagatedToCont == outer
  }

  /** Every promise after the first reports to its predecessor. */
  ghost predicate PairsLinked(chain: seq<Promise>)
    requires chain != []
    reads chain[1..]`outerPromise, chain[1..]`propagatedToFlags, chain[1..]`propagatedToCont
  {
    forall i, j :: 0 <= i < j < |chain| && j == i + 1 ==> chain[1..][i] == chain[j] && LinksTo(chain[j], chain[i])
  }

  /** ... and the first, the root, to nobody. */
  ghost predicate LinkedUp(chain: seq<Promise>)
    requires chain != []
    reads chain`outerPromise, chain`propagatedToFlags, chain`propagatedToCont
  {
    LinksTo(chain[0], null) && (forall p :: p in chain[1..] ==> p in chain) && PairsLinked(chain)
  }

  /** Every promise of the chain names the deepest awaited state, none when nothing is suspended. */
  ghost predicate CopiesAgree(chain: seq<Promise>, leaf: Cell?)
    reads chain`awaitedFlags, chain`awaitedCont
  {
    forall p :: p in chain ==> p.awaitedFlags == leaf && p.awaitedCont == leaf
  }

  ghost function Cells(chain: seq<Promise>): set<Cell>
  {
    set p | p in chain && p.state != null :: p.state
  }

  /** All but the root produce a state of their own. */
  predicate StatesDistinct(chain: seq<Promise>)
  {
    && (forall i :: 0 < i < |chain| ==> chain[i].state != null)
    && (forall i, j :: 0 <= i < j < |chain| ==> chain[i].state != chain[j].state)
  }

  /** The state of every coroutine after the first is registered with the coroutine that awaits it. */
  ghost predicate PairsRegistered(chain: seq<Promise>)
    requires chain != []
    reads Cells(chain[1..])`continuation
  {
    forall i, j :: 0 <= i < j < |chain| && j == i + 1 && chain[j].state != null ==>
      chain[1..][i] == chain[j] && chain[j].state in Cells(chain[1..]) && chain[j].state.continuation == chain[i]
  }

  ghost predicate StillOwned(cells: set<Cell>)
    reads cells`futureReleased
  {
    forall c :: c in cells ==> !c.futureReleased
  }

  /** ... the first one's with nobody yet, and all of them are still owned. */
  ghost predicate AwaitersRegistered(chain: seq<Promise>)
    requires chain != []
    reads Cells(chain)
  {
    && (forall c :: c in Cells(chain[1..]) ==> c in Cells(chain))
    && PairsRegistered(chain) && StillOwned(Cells(chain))
    && (chain[0].state != null ==> chain[0].state in Cells(chain) && chain[0].state.continuation == null)
  }

  /** The deepest awaited state is still owned, and its continuation is the deepest coroutine. */
  ghost predicate LeafRegistered(leaf: Cell?, last: Promise)
    reads if leaf == null then {} else {leaf}
  {
    leaf != null ==> !leaf.futureReleased && leaf.continuation == last
  }

  /**
   A coroutine together with the coroutines it waits for: an actor's behavior, or a method it calls.
   Only `root` and `finished` are real; the chain is what the promises' pointers spell out.
   */
  class Coroutine {
    var root: Promise?
    var finished: bool               // handle_.done(): the root is at its final suspend point
    ghost var chain: seq<Promise>    // root first, each waiting for the next
    ghost var leaf: Cell?            // what the last of the chain waits for; none while it runs
    ghost var Repr: set<object>

    /** Which objects belong to the chain. */
    ghost predicate Owned()
      reads this
    {
      && this in Repr
      && (root == null <==> chain == [])
      && (root != null ==> chain[0] == root)
      && (finished ==> |chain| <= 1 && leaf == null)
      && (root == null ==> leaf == null)
      && (forall p :: p in chain ==> p in Repr)
      && Cells(chain) <= Repr
      && (leaf != null ==> leaf in Repr && leaf !in Cells(chain))
      && Distinct(chain) && StatesDistinct(chain)
    }

    /** Valid but for what the copies name and for the leaf. */
    ghost predicate Linked()
      reads this, Repr
    {
      Owned() && root != null && LinkedUp(chain) && AwaitersRegistered(chain)
    }

    /** Links, copies and continuations agree along the whole chain. */
    ghost predicate Valid()
      reads this, Repr
      ensures Valid() ==> this in Repr
    {
      && Owned()
      && (root != null ==> Linked() && CopiesAgree(chain, leaf) && LeafRegistered(leaf, Last(chain)))
    }

    /** The deepest coroutine has control: the drain and the scheduler do not. */
    ghost predicate Running()
      reads this
    {
      root != null && !finished && leaf == null
    }

    constructor ()
      ensures Valid() && root == null && fresh(Repr) && !finished && leaf == null
    {
      root, finished, chain, leaf := null, false, [], null;
      Repr := {this};
    }

    constructor Call(isMethod: bool)
      ensures Valid() && Running() && |chain| == 1 && fresh(Repr)
      ensures isMethod <==> root.state != null
    {
      var cell: Cell? := null;
      if isMethod {
        cell := new Cell();
      }
      var p := new Promise(cell);
      root, finished, chain, leaf := p, false, [p], null;
      new;
      Repr := {this, p} + (if cell == null then {} else {cell});
    }

    /**
     The running coroutine awaits a future no coroutine of ours produces. `early` and `late` are what
     `has_result` reads before and after the await is published, `raced` what the re-check reads
     once the continuation is registered. Control comes back to the coroutine unless it suspends.
     */
    method AwaitFuture(me: Promise, cell: Cell, early: bool, late: bool, raced: bool) returns (suspended: bool)
      requires Valid() && Running() && me == Last(chain)
      requires cell !in Repr && cell.continuation == null && !cell.futureReleased
      modifies this`leaf, this`Repr, chain`awaitedFlags, chain`awaitedCont, cell
      ensures Valid() && Repr == old(Repr) + {cell}
      ensures root == old(root) && chain == old(chain) && !finished
      ensures suspended <==> !early && !late && !raced
      ensures leaf == if suspended then cell else null
      ensures !suspended ==> cell.futureReleased && cell.continuation == null
    {
      PublishAwait(me, cell, early);
      if early || late {
        AwaitResume(me, cell);
        suspended := false;
      } else {
        suspended := AwaitSuspend(me, cell, raced);
      }
    }

    /** Register the continuation, look again, and take it back if the result came in between. */
    method AwaitSuspend(me: Promise, cell: Cell, raced: bool) returns (suspended: bool)
      requires Linked() && Running() && me == Last(chain) && CopiesAgree(chain, cell)
      requires cell !in Repr && cell.continuation == null && !cell.futureReleased
      modifies this`leaf, this`Repr, chain`awaitedFlags, chain`awaitedCont, cell
      ensures Valid() && Repr == old(Repr) + {cell}
      ensures suspended == !raced && leaf == if suspended then cell else null
      ensures !suspended ==> cell.futureReleased && cell.continuation == null
    {
      RegisterSelf(me, cell, raced);
      if raced {
        AwaitResume(me, cell);
        return false;
      }
      Repr := Repr + {cell};
      leaf := cell;
      return true;
    }

    /** The compare-exchange from null, and after a second look that finds a result the exchange that takes it back. */
    method RegisterSelf(me: Promise, cell: Cell, raced: bool)
      requires Linked() && CopiesAgree(chain, cell) && cell !in Repr && cell.continuation == null
      modifies cell`continuation
      ensures Linked() && CopiesAgree(chain, cell) && cell.continuation == if raced then null else me
    {
      cell.continuation := me;
      if raced {
        cell.continuation := null;
      }
    }

    method PublishAwait(me: Promise, cell: Cell, early: bool)
      requires chain != [] && me == Last(chain) && LinkedUp(chain) && Distinct(chain)
      modifies chain`awaitedFlags, chain`awaitedCont
      ensures CopiesAgree(chain, if early then null else cell)
    {
      me.PropagateAwaitedState(cell, null, early, chain);
    }

    /** `await_resume`: clear the chain, then let the awaited future go. */
    method AwaitResume(me: Promise, cell: Cell)
      requires Linked() && Running() && me == Last(chain)
      requires cell.continuation == null && cell !in Cells(chain)
      modifies this`Repr, chain`awaitedFlags, chain`awaitedCont, cell`futureReleased
      ensures Valid() && Repr == old(Repr) + {cell} && cell.futureReleased
    {
      ClearCopies(me);
      LetGo(cell);
      Repr := Repr + {cell};
      assert Linked();
    }

    method LetGo(cell: Cell)
      requires Linked() && CopiesAgree(chain, null) && cell !in Cells(chain)
      modifies cell`futureReleased
      ensures Linked() && CopiesAgree(chain, null) && cell.futureReleased
    {
      cell.futureReleased := true;
    }

    method ClearCopies(me: Promise)
      requires Linked() && me == Last(chain)
      modifies chain`awaitedFlags, chain`awaitedCont
      ensures Linked() && CopiesAgree(chain, null)
    {
      me.ClearAwaitedChain(chain);
    }

    /** `take_awaited_continuation`, through the root's copy of the deepest awaited state. */
    method TakeAwaitedContinuation() returns (cont: Promise?, cell: Cell?)
      requires Valid()
      modifies OnlyCell(leaf)`continuation
      ensures cell == leaf
      ensures cont == if leaf == null then null else Last(chain)
      ensures leaf != null ==> leaf.continuation == null && Linked() && CopiesAgree(chain, leaf) && !leaf.futureReleased
    {
      cont, cell := null, null;
      if root == null || finished { return; }
      assert root in chain;
      cell := root.awaitedCont;
      if cell != null {
        cont := cell.continuation;
        cell.continuation := null;
      }
    }

    /** The claimed continuation resumes: the deepest coroutine has control again. */
    method ResumeClaimed(cont: Promise, cell: Cell)
      requires Linked() && !finished && leaf == cell && cont == Last(chain) && cell.continuation == null
      modifies this`leaf, this`Repr, chain`awaitedFlags, chain`awaitedCont, cell`futureReleased
      ensures Valid() && Running() && chain == old(chain) && root == old(root) && Repr == old(Repr) && cell.futureReleased
    {
      leaf := null;
      AwaitResume(cont, cell);
      assert cell in old(Repr);
    }

    /**
     The running coroutine finishes. Its final awaiter hands control to the coroutine that awaits it,
     which clears the chain and lets the finished one's future go; a root stays at its final suspend.
     */
    method Return(me: Promise) returns (next: Promise?)
      requires Valid() && Running() && me == Last(chain)
      modifies this, chain`awaitedFlags, chain`awaitedCont, Cells(chain)
      ensures Valid() && Repr == old(Repr) && root == old(root) && StillReleased(old(Repr))
      ensures if |old(chain)| == 1 then finished && next == null && chain == old(chain)
              else Running() && chain == old(chain[..|chain| - 1]) && next == Last(chain)
                   && me.state.futureReleased && me.state.continuation == null
    {
      if me == root {
        finished := true;
        return null;
      }
      next := FinalAwait(me);
      AwaitResume(next, me.state);
    }

    /** The final awaiter claims the continuation of the finished coroutine, which leaves the chain ready. */
    method FinalAwait(me: Promise) returns (cont: Promise)
      requires Valid() && Running() && me == Last(chain) && |chain| > 1
      modifies this`chain, Cells(chain)`continuation, Cells(chain)`ready
      ensures Linked() && Running() && chain == old(AllButLast(chain)) && cont == Last(chain)
      ensures me.state != null && me.state.continuation == null && me.state !in Cells(chain) && me.state in Repr
    {
      ghost var up := AllButLast(chain);
      assert chain[|chain| - 1].state != null && me.state.continuation == chain[|chain| - 2];
      assert me.state in Cells(chain);
      ShorterChain(chain);
      cont := me.state.continuation;
      ReleaseOwn(me.state, up);
      chain := up;
    }

    /** The finished coroutine's state gives up its continuation and becomes ready. */
    method ReleaseOwn(cell: Cell, ghost up: seq<Promise>)
      requires up != [] && LinkedUp(up) && AwaitersRegistered(up) && cell !in Cells(up)
      modifies cell`continuation, cell`ready
      ensures LinkedUp(up) && AwaitersRegistered(up) && cell.continuation == null
    {
      cell.continuation := null;
      cell.ready := true;
    }

    /**
     The running coroutine awaits a method that has already suspended: the two chains become one, and
     every promise of ours comes to name the state the method's deepest coroutine waits for.
     */
    method AwaitMethod(me: Promise, callee: Coroutine)
      requires Valid() && Running() && me == Last(chain)
      requires callee.Valid() && callee.leaf != null && callee.root.state != null && Repr !! callee.Repr
      modifies this, chain`awaitedFlags, chain`awaitedCont
      modifies Only(callee.root)`propagatedToFlags, Only(callee.root)`propagatedToCont, Only(callee.root)`outerPromise
      modifies OnlyCell(callee.root.state)`continuation
      ensures Valid() && root == old(root) && !finished
      ensures chain == old(chain) + callee.chain && leaf == callee.leaf && Repr == old(Repr) + callee.Repr
    {
      LinkCallee(me, callee);
      Join(callee);
    }

    /** The callee's chain reports to our deepest promise, which copies what the callee waits for. */
    ghost predicate CalleeLinked(callee: Coroutine)
      requires chain != []
      reads callee, callee.chain, Cells(callee.chain), OnlyCell(callee.leaf), this, chain
    {
      && callee.chain != [] && callee.leaf != null && callee.chain[0] == callee.root
      && LinksTo(callee.chain[0], Last(chain)) && PairsLinked(callee.chain)
      && callee.chain[0].state != null && callee.chain[0].state in Cells(callee.chain)
      && callee.chain[0].state.continuation == Last(chain)
      && PairsRegistered(callee.chain) && StillOwned(Cells(callee.chain))
      && LeafRegistered(callee.leaf, Last(callee.chain))
      && CopiesAgree(callee.chain, callee.leaf) && CopiesAgree(chain, callee.leaf)
    }

    method LinkCallee(me: Promise, callee: Coroutine)
      requires Valid() && Running() && me == Last(chain)
      requires callee.Valid() && callee.leaf != null && callee.root.state != null && Repr !! callee.Repr
      modifies chain`awaitedFlags, chain`awaitedCont
      modifies Only(callee.root)`propagatedToFlags, Only(callee.root)`propagatedToCont, Only(callee.root)`outerPromise
      modifies OnlyCell(callee.root.state)`continuation
      ensures Linked() && CalleeLinked(callee) && callee.Owned()
    {
      ghost var lower := callee.chain;
      assert lower[0] == callee.root && lower[0] in lower;
      OwnStateApart(callee);
      assert callee.root.state !in Cells(chain);
      PointPastCallee(me, callee.root, lower, callee.leaf);
      RegisterCallee(me, callee);
    }

    /** The caller suspends on the method's own state. */
    method RegisterCallee(me: Promise, callee: Coroutine)
      requires Linked() && me == Last(chain) && callee.Owned() && callee.root != null && callee.leaf != null
      requires callee.root.state != null && callee.root.state in Cells(callee.chain)
      requires callee.root.state !in Cells(chain) && callee.root.state !in Cells(callee.chain[1..])
      requires LinksTo(callee.root, me) && PairsLinked(callee.chain) && AwaitersRegistered(callee.chain)
      requires LeafRegistered(callee.leaf, Last(callee.chain))
      requires CopiesAgree(callee.chain, callee.leaf) && CopiesAgree(chain, callee.leaf)
      modifies callee.root.state`continuation
      ensures Linked() && CalleeLinked(callee) && callee.Owned()
    {
      Register(callee.root.state, me);
    }

    lemma OwnStateApart(callee: Coroutine)
      requires callee.Valid() && callee.root != null && callee.root.state != null
      ensures callee.root.state in Cells(callee.chain) && callee.root.state !in Cells(callee.chain[1..])
      ensures callee.root.state in callee.Repr
    {
      assert callee.chain[0] in callee.chain;
      forall p | p in callee.chain[1..]
        ensures p.state != callee.root.state
      {
        var i :| 0 <= i < |callee.chain[1..]| && callee.chain[1..][i] == p;
        assert callee.chain[i + 1] == p;
      }
    }

    method Register(cell: Cell, me: Promise)
      requires Linked() && cell !in Cells(chain)
      modifies cell`continuation
      ensures Linked() && cell.continuation == me
    {
      cell.continuation := me;
    }

    method PointPastCallee(me: Promise, callee: Promise, ghost lower: seq<Promise>, ghost wait: Cell)
      requires Linked() && me == Last(chain) && callee.state != null
      requires lower != [] && lower[0] == callee && Distinct(lower) && LinkedUp(lower) && CopiesAgree(lower, wait)
      requires forall p :: p in lower ==> p !in Repr
      modifies chain`awaitedFlags, chain`awaitedCont
      modifies callee`propagatedToFlags, callee`propagatedToCont, callee`outerPromise
      ensures Linked() && CopiesAgree(chain, wait) && CopiesAgree(lower, wait)
      ensures LinksTo(callee, me) && PairsLinked(lower)
    {
      assert callee in lower && callee !in lower[1..];
      assert forall p :: p in chain ==> p !in lower;
      assert callee.awaitedFlags == wait && callee.awaitedCont == wait;
      NameLeaf(me, callee, wait);
      KeptPairs(lower);
      assert Owned() && LinkedUp(chain);
      assert AwaitersRegistered(chain);
    }

    method NameLeaf(me: Promise, callee: Promise, ghost wait: Cell)
      requires chain != [] && me == Last(chain) && LinkedUp(chain) && Distinct(chain)
      requires callee !in chain && callee.state != null && callee.awaitedFlags == wait && callee.awaitedCont == wait
      modifies chain`awaitedFlags, chain`awaitedCont
      modifies callee`propagatedToFlags, callee`propagatedToCont, callee`outerPromise
      ensures CopiesAgree(chain, wait) && LinksTo(callee, me)
    {
      me.PropagateAwaitedState(callee.state, callee, false, chain);
    }

    ghost method Join(callee: Coroutine)
      requires Linked() && Running() && CalleeLinked(callee) && callee.Owned() && Repr !! callee.Repr
      modifies this
      ensures Valid() && root == old(root) && !finished
      ensures chain == old(chain) + callee.chain && leaf == callee.leaf && Repr == old(Repr) + callee.Repr
    {
      JoinedStatic(chain, callee.chain, Repr, callee.Repr);
      JoinedLinks(chain, callee.chain);
      JoinedAwaiters(chain, callee.chain);
      ghost var both := chain + callee.chain;
      assert CopiesAgree(both, callee.leaf) && both[0] == chain[0];
      Adopt(both, callee.leaf, callee.Repr);
    }

    ghost method Adopt(both: seq<Promise>, wait: Cell?, more: set<object>)
      requires Owned() && root != null && both != [] && both[0] == root && !finished
      requires LinkedUp(both) && AwaitersRegistered(both) && CopiesAgree(both, wait) && LeafRegistered(wait, Last(both))
      requires Distinct(both) && StatesDistinct(both)
      requires (forall p :: p in both ==> p in Repr + more) && Cells(both) <= Repr + more
      requires wait != null ==> wait in Repr + more && wait !in Cells(both)
      modifies this
      ensures root == old(root) && !finished && chain == both && leaf == wait && Repr == old(Repr) + more
      ensures Valid()
    {
      chain, leaf, Repr := both, wait, Repr + more;
      assert Owned();
      assert Linked();
    }

    // ---------- what the actor asks of its behavior ----------

    predicate Done()
      reads this
    {
      root == null || finished
    }

    /** Suspended on a co_await, as the root's own copy tells. */
    predicate IsBusy()
      reads this, Only(root)
    {
      root != null && !finished && root.awaitedFlags != null
    }

    /** The root's copy of the deepest awaited state says that it is ready. */
    predicate IsAwaitedReady()
      reads this, Only(root), if root == null then {} else OnlyCell(root.awaitedFlags)
    {
      root != null && !finished && root.awaitedFlags != null && root.awaitedFlags.ready
    }

    /** Method coroutines that have been called and whose futures are kept for a later await. */
    ghost predicate Keeps(held: set<Coroutine>)
      reads this, held, (set c, o | c in held && o in c.Repr :: o)
    {
      && (forall c <- held :: c.Valid() && !c.Running() && c.root != null && c.root.state != null)
      && (forall c <- held :: Repr !! c.Repr)
      && (forall c <- held, d <- held | c != d :: c.Repr !! d.Repr)
    }

    /**
     What user code does once a coroutine has control: any number of awaits of futures, of calls to
     methods that run at once and may suspend, of awaits of their futures then or later, of futures
     dropped, and of returns, until it suspends or is finished.
     */
    method RunUserCode(deepest: Promise, fuel: nat)
      requires Valid() && Running() && deepest == Last(chain)
      modifies Repr
      ensures Valid() && !Running() && root == old(root) && fresh(Repr - old(Repr))
      ensures (leaf != null ==> fresh(leaf)) && StillReleased(old(Repr))
      decreases fuel, 0
    {
      var me: Promise? := deepest;
      var steps := fuel;
      var held: set<Coroutine> := {};
      while steps > 0
        invariant Valid() && root == old(root) && root != null && fresh(Repr - old(Repr)) && steps <= fuel
        invariant Running() && me == Last(chain)
        invariant Keeps(held) && forall c <- held :: fresh(c.Repr)
        invariant StillReleased(old(Repr)) && old(Repr) <= Repr
      {
        steps := steps - 1;
        var choice: nat := *;
        if choice == 1 || choice == 3 {
          held := CallOrDrop(held, choice == 1, steps);
        } else if choice == 2 && held != {} {
          me, held := AwaitSome(me, held);
        } else {
          me := ActAlone(me, choice == 0, held);
        }
        if me == null { return; }
      }
      ReturnAll(me);
    }

    /** What is kept aside is not touched by what the chain does. */
    twostate lemma StillKept(held: set<Coroutine>)
      requires old(Keeps(held)) && unchanged(set c, o | c in held && o in old(c.Repr) :: o)
      requires forall c <- held :: Repr !! c.Repr
      ensures Keeps(held)
    {
      forall c <- held
        ensures c.Valid() && !c.Running()
      {
        assert c in old(c.Repr) && unchanged(old(c.Repr));
      }
    }

    /** Await a future that no coroutine of ours produces, or return; null if that ends the activation. */
    method ActAlone(me: Promise, awaits: bool, ghost held: set<Coroutine>) returns (next: Promise?)
      requires Valid() && Running() && me == Last(chain) && Keeps(held)
      modifies this, chain`awaitedFlags, chain`awaitedCont, Cells(chain)
      ensures Valid() && root == old(root) && fresh(Repr - old(Repr)) && old(Repr) <= Repr && Keeps(held)
      ensures next == null ==> !Running() && (leaf != null ==> fresh(leaf))
      ensures next != null ==> Running() && next == Last(chain)
      ensures StillReleased(old(Repr))
    {
      if awaits {
        next := AwaitOther(me, held);
      } else {
        next := ReturnKeeping(me, held);
      }
    }

    /** Await a future that no coroutine of ours produces; null if that suspends us. */
    method AwaitOther(me: Promise, ghost held: set<Coroutine>) returns (next: Promise?)
      requires Valid() && Running() && me == Last(chain) && Keeps(held)
      modifies this`leaf, this`Repr, chain`awaitedFlags, chain`awaitedCont
      ensures Valid() && root == old(root) && fresh(Repr - old(Repr)) && old(Repr) <= Repr && Keeps(held)
      ensures next == null ==> !Running() && leaf != null && fresh(leaf)
      ensures StillReleased(old(Repr))
      ensures next != null ==> Running() && next == me == Last(chain)
    {
      var cell := new Cell();
      next := AwaitCell(me, cell, held);
    }

    method AwaitCell(me: Promise, cell: Cell, ghost held: set<Coroutine>) returns (next: Promise?)
      requires Valid() && Running() && me == Last(chain) && Keeps(held)
      requires cell !in Repr && cell.continuation == null && !cell.futureReleased && forall c <- held :: cell !in c.Repr
      modifies this`leaf, this`Repr, chain`awaitedFlags, chain`awaitedCont, cell
      ensures Valid() && root == old(root) && Repr == old(Repr) + {cell} && Keeps(held)
      ensures next == null ==> !Running() && leaf == cell
      ensures next != null ==> Running() && next == me == Last(chain)
    {
      var early, late, raced: bool := *, *, *;
      var suspended := AwaitFuture(me, cell, early, late, raced);
      StillKept(held);
      next := if suspended then null else me;
    }

    method CallOrDrop(held: set<Coroutine>, calls: bool, fuel: nat) returns (now: set<Coroutine>)
      requires Valid() && Keeps(held)
      ensures Keeps(now) && forall c <- now :: c in held || fresh(c.Repr)
      decreases fuel, 3
    {
      if calls {
        now := CallMethod(held, fuel);
      } else {
        now := DropSome(held);
      }
    }

    /** Call a method coroutine, let it run, and keep its future. */
    method CallMethod(held: set<Coroutine>, fuel: nat) returns (more: set<Coroutine>)
      requires Valid() && Keeps(held)
      ensures Keeps(more) && held <= more && forall c <- more :: c in held || fresh(c.Repr)
      decreases fuel, 2
    {
      var callee := Invoke(fuel);
      KeepsMore(held, callee);
      more := held + {callee};
    }

    lemma KeepsMore(held: set<Coroutine>, callee: Coroutine)
      requires Keeps(held) && callee.Valid() && !callee.Running() && callee.root != null && callee.root.state != null
      requires Repr !! callee.Repr && forall c <- held :: c.Repr !! callee.Repr
      ensures Keeps(held + {callee})
    {
    }

    /** Await the future of some method called before; null if that suspends us. */
    method AwaitSome(me: Promise, held: set<Coroutine>) returns (next: Promise?, rest: set<Coroutine>)
      requires Valid() && Running() && me == Last(chain) && Keeps(held) && held != {}
      modifies this, chain`awaitedFlags, chain`awaitedCont, (set c, o | c in held && o in c.Repr :: o)
      ensures Valid() && root == old(root) && Repr <= old(Repr) + old(set c, o | c in held && o in c.Repr :: o)
      ensures rest <= held && Keeps(rest) && old(Repr) <= Repr && forall c <- rest :: c.Repr == old(c.Repr)
      ensures next == null ==> !Running() && leaf != null && leaf in old(set c, o | c in held && o in c.Repr :: o)
      ensures StillReleased(old(Repr))
      ensures next != null ==> Running() && next == me == Last(chain)
    {
      var callee :| callee in held;
      rest := held - {callee};
      assert held == rest + {callee};
      next := AwaitHeld(me, callee, rest);
    }

    method AwaitHeld(me: Promise, callee: Coroutine, ghost rest: set<Coroutine>) returns (next: Promise?)
      requires Valid() && Running() && me == Last(chain) && Keeps(rest + {callee}) && callee !in rest
      modifies this, chain`awaitedFlags, chain`awaitedCont, callee.Repr
      ensures Valid() && root == old(root) && Repr <= old(Repr) + old(callee.Repr)
      ensures Keeps(rest) && old(Repr) <= Repr && forall c <- rest :: c.Repr == old(c.Repr)
      ensures next == null ==> !Running() && leaf != null && leaf in old(callee.Repr)
      ensures StillReleased(old(Repr))
      ensures next != null ==> Running() && next == me == Last(chain)
    {
      assert callee in rest + {callee};
      assert forall d <- rest :: d in rest + {callee};
      assert Keeps(rest);
      var suspended := AwaitCallee(me, callee);
      StillKept(rest);
      next := if suspended then null else me;
    }

    method DropSome(held: set<Coroutine>) returns (rest: set<Coroutine>)
      requires Keeps(held)
      ensures rest <= held && Keeps(rest)
    {
      var dropped: set<Coroutine> := *;
      rest := held - dropped;
    }

    method ReturnKeeping(me: Promise, ghost held: set<Coroutine>) returns (next: Promise?)
      requires Valid() && Running() && me == Last(chain) && Keeps(held)
      modifies this, chain`awaitedFlags, chain`awaitedCont, Cells(chain)
      ensures Valid() && Repr == old(Repr) && root == old(root) && Keeps(held) && StillReleased(old(Repr))
      ensures next == null ==> !Running() && leaf == null
      ensures next != null ==> Running() && next == Last(chain)
    {
      next := Return(me);
      StillKept(held);
    }

    /** A method coroutine starts at once and runs until it suspends or is finished. */
    static method Invoke(fuel: nat) returns (callee: Coroutine)
      ensures callee.Valid() && !callee.Running() && callee.root != null && callee.root.state != null
      ensures fresh(callee) && fresh(callee.Repr)
      decreases fuel, 1
    {
      callee := new Coroutine.Call(true);
      callee.RunUserCode(callee.root, fuel);
    }

    /** Await a method's future: past it if it has finished, into its chain if it has suspended. */
    method AwaitCallee(me: Promise, callee: Coroutine) returns (suspended: bool)
      requires Valid() && Running() && me == Last(chain)
      requires callee.Valid() && !callee.Running() && callee.root != null && callee.root.state != null && Repr !! callee.Repr
      modifies this, chain`awaitedFlags, chain`awaitedCont, callee.Repr
      ensures Valid() && root == old(root) && !finished && old(Repr) <= Repr <= old(Repr) + old(callee.Repr)
      ensures suspended == !old(callee.finished) && leaf == if suspended then old(callee.leaf) else null
      ensures !suspended ==> Running() && chain == old(chain)
    {
      assert callee.root in callee.chain && callee.root.state in Cells(callee.chain);
      if callee.finished {
        suspended := AwaitFuture(me, callee.root.state, true, true, true);
      } else {
        AwaitMethod(me, callee);
        suspended := true;
      }
    }

    method ReturnAll(deepest: Promise)
      requires Valid() && Running() && deepest == Last(chain)
      modifies Repr
      ensures Valid() && finished && root == old(root) && Repr == old(Repr) && StillReleased(old(Repr))
    {
      var me := deepest;
      while true
        invariant Valid() && Running() && me == Last(chain) && root == old(root) && Repr == old(Repr)
        invariant StillReleased(old(Repr))
        decreases |chain|
      {
        var next := Return(me);
        if next == null { return; }
        me := next;
      }
    }

    /** `current_behavior_ = behavior(msg)`: only a finished frame is overwritten. */
    method Deliver(fuel: nat)
      requires Valid() && Done()
      modifies Repr
      ensures Valid() && !Running() && root != null && fresh(root) && fresh(Repr - old(Repr))
    {
      var p := new Promise(null);
      root, finished, chain, leaf := p, false, [p], null;
      Repr := Repr + {p};
      RunUserCode(p, fuel);
    }

    /**
     The drain of a turn. If the deepest awaited state is ready, the coroutine that waits on it is given
     control, which lets the state go; it ends or suspends on another state. If not, nothing changes.
     */
    method Drain(fuel: nat) returns (busy: bool, claimed: Promise?)
      requires Valid() && !Running()
      modifies Repr
      ensures Valid() && !Running() && root == old(root) && fresh(Repr - old(Repr))
      ensures busy == IsBusy() && (busy <==> !Done())
      ensures old(Done()) ==> Done()
      ensures old(leaf == null || !leaf.ready) ==>
        leaf == old(leaf) && (leaf != null ==> !leaf.ready) && busy == old(IsBusy()) && claimed == null
      ensures old(leaf != null && leaf.ready) ==>
        claimed == old(Last(chain)) && old(leaf).futureReleased && (leaf == null || fresh(leaf))
    {
      claimed := null;
      RootNamesLeaf();
      if IsBusy() && IsAwaitedReady() {
        claimed := ResumeDeepest(fuel);
      }
      BusyIffNotDone(this);
      busy := IsBusy();
    }

    lemma RootNamesLeaf()
      requires Valid() && !Running()
      ensures IsBusy() <==> leaf != null
      ensures IsAwaitedReady() <==> leaf != null && leaf.ready
    {
      if root != null {
        assert root in chain;
      }
    }

    /** Take the deepest awaited continuation and resume it. */
    method ResumeDeepest(fuel: nat) returns (claimed: Promise)
      requires Valid() && !Running() && leaf != null
      modifies Repr
      ensures Valid() && !Running() && root == old(root) && fresh(Repr - old(Repr))
      ensures claimed == old(Last(chain)) && old(leaf).futureReleased && (leaf == null || fresh(leaf))
    {
      var cont, cell := TakeAwaitedContinuation();
      claimed := cont;
      ResumeClaimed(claimed, cell);
      RunUserCode(claimed, fuel);
    }
  }

  /** Whenever the drain or the scheduler has control, a behavior that is not busy is done. */
  lemma BusyIffNotDone(c: Coroutine)
    requires c.Valid() && !c.Running()
    ensures c.IsBusy() <==> !c.Done()
  {
    if c.root != null {
      assert c.root in c.chain;
    }
  }

  lemma ShorterLinks(chain: seq<Promise>)
    requires |chain| > 1 && Distinct(chain) && LinkedUp(chain)
    ensures var up := AllButLast(chain);
            && Distinct(up) && LinkedUp(up) && Last(chain) !in up && LinksTo(Last(chain), Last(up))
  {
    var up := AllButLast(chain);
    assert forall i :: 0 <= i < |up| ==> up[i] == chain[i];
    assert up[1..] == chain[1..|chain| - 1];
    assert chain[|chain| - 2] == Last(up);
    assert LinksTo(chain[|chain| - 1], chain[|chain| - 2]);
    forall p | p in up[1..]
      ensures p in up
    {
      var i :| 0 <= i < |up[1..]| && up[1..][i] == p;
      assert up[i + 1] == p;
    }
  }

  twostate lemma KeptPairs(chain: seq<Promise>)
    requires chain != [] && old(PairsLinked(chain))
    requires forall p :: p in chain[1..] ==> p.outerPromise == old(p.outerPromise)
    requires forall p :: p in chain[1..] ==> p.propagatedToFlags == old(p.propagatedToFlags)
    requires forall p :: p in chain[1..] ==> p.propagatedToCont == old(p.propagatedToCont)
    ensures PairsLinked(chain)
  {
    forall i, j | 0 <= i < j < |chain| && j == i + 1
      ensures chain[1..][i] == chain[j] && LinksTo(chain[j], chain[i])
    {
      assert chain[1..][i] in chain[1..];
    }
  }

  // A chain without its last promise.
  lemma ShorterChain(chain: seq<Promise>)
    requires |chain| > 1 && Distinct(chain) && StatesDistinct(chain) && LinkedUp(chain) && AwaitersRegistered(chain)
    ensures var up := AllButLast(chain);
            && Distinct(up) && StatesDistinct(up) && LinkedUp(up) && AwaitersRegistered(up)
            && Cells(up) <= Cells(chain) && Last(chain).state !in Cells(up)
            && (forall p :: p in up ==> p in chain) && up[0] == chain[0]
  {
    var up := AllButLast(chain);
    assert forall i :: 0 <= i < |up[1..]| ==> up[1..][i] == chain[1..][i];
    forall c | c in Cells(up) ensures c in Cells(chain) && c != Last(chain).state {
      var p :| p in up && p.state == c;
      assert p in chain;
    }
    forall j | 0 < j < |up| && up[j].state != null ensures up[j].state in Cells(up[1..]) {
      assert up[j] == up[1..][j - 1];
    }
    forall c | c in Cells(up[1..]) ensures c in Cells(up) {
      var p :| p in up[1..] && p.state == c;
      assert p in up;
    }
    if up[0].state != null { assert up[0] in up; }
  }

  // Two disjoint chains, one after the other.
  lemma JoinedStatic(upper: seq<Promise>, lower: seq<Promise>, r: set<object>, q: set<object>)
    requires upper != [] && lower != [] && r !! q && lower[0].state != null
    requires (forall p :: p in upper ==> p in r) && (forall p :: p in lower ==> p in q)
    requires Cells(upper) <= r && Cells(lower) <= q
    requires Distinct(upper) && Distinct(lower) && StatesDistinct(upper) && StatesDistinct(lower)
    ensures Cells(upper + lower) == Cells(upper) + Cells(lower)
    ensures Last(upper + lower) == Last(lower)
    ensures Distinct(upper + lower) && StatesDistinct(upper + lower)
    ensures forall p :: p in upper + lower ==> p in r + q
  {
    var both := upper + lower;
    forall p | p in both && p.state != null ensures p.state in Cells(upper) + Cells(lower) {
      assert p in upper || p in lower;
    }
    forall c | c in Cells(upper) ensures c in Cells(both) {
      var p :| p in upper && p.state == c;
      assert p in both;
    }
    forall c | c in Cells(lower) ensures c in Cells(both) {
      var p :| p in lower && p.state == c;
      assert p in both;
    }
    forall i, j | 0 <= i < j < |both| ensures both[i] != both[j] && both[i].state != both[j].state {
      if i < |upper| <= j {
        assert both[i] in upper && both[j] in lower;
        assert both[i].state != null ==> both[i].state in Cells(upper);
        assert both[j].state in Cells(lower);
      }
    }
  }

  lemma JoinedLinks(upper: seq<Promise>, lower: seq<Promise>)
    requires upper != [] && lower != [] && LinkedUp(upper) && PairsLinked(lower) && LinksTo(lower[0], Last(upper))
    ensures LinkedUp(upper + lower)
  {
  }

  lemma JoinedAwaiters(upper: seq<Promise>, lower: seq<Promise>)
    requires upper != [] && lower != [] && AwaitersRegistered(upper) && PairsRegistered(lower) && StillOwned(Cells(lower))
    requires lower[0].state != null && lower[0].state.continuation == Last(upper)
    requires Cells(upper + lower) == Cells(upper) + Cells(lower)
    ensures AwaitersRegistered(upper + lower)
  {
  }
}
