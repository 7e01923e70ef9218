/**
 The lock-free inbox: one word that names the top of a chain of nodes or one of two tags, any number
 of pushers that compare-exchange a node onto it, and one reader that takes the whole chain, blocks,
 unblocks or closes. Node addresses are recycled, so a compare-exchange may succeed on a reused one.
 */
module LifoInboxes {
  import opened Wrappers

  type Tid = nat
  type Addr = nat
  type Msg = nat

  datatype Ptr = Null | BlockedTag | ClosedTag | Node(addr: Addr)

  /** Inside `push_front`. */
  datatype Pusher =
    | Load(a: Addr)                    // about to read the word
    | Test(a: Addr, last: Ptr)         // about to look at it and to write the node's next
    | Exchange(a: Addr, last: Ptr)     // about to compare-exchange
    | Returned(result: EnqueueResult)

  /** The reader: inside `take_head`, or walking the chain it took. */
  datatype Reader = Idle | Taking(newHead: Ptr, last: Ptr) | Walking(ptr: Ptr)

  /** Who may touch a node; an address without an entry is free memory. */
  datatype Owner = ByPusher(t: Tid) | InStack | ByReader | Handed

  datatype State = State(
    stack: Ptr,
    next: map<Addr, Ptr>,
    msg: map<Addr, Msg>,
    owner: map<Addr, Owner>,
    pushers: map<Tid, Pusher>,
    reader: Reader,
    // auxiliary
    chain: seq<Addr>,                  // the nodes on the stack, top first
    walk: seq<Addr>,                   // the nodes the reader still walks over
    accepted: seq<Msg>,                // successful pushes in their order
    taken: seq<Msg>,                   // messages that left the stack, oldest first
    blocks: nat, unblocks: nat, wakeups: nat)

  datatype Action =
    | Push(t: Tid, a: Addr, m: Msg)    // a new message, in a node at any free address
    | Advance(t: Tid, spurious: bool)
    | TryBlock | TryUnblock
    | TakeHead(newHead: Ptr)           // take all (`Null`) or close (`ClosedTag`)
    | Read(spurious: bool)             // the reader's next step
    | Scribble(a: Addr, p: Ptr)        // whoever was handed a node relinks it
    | Release(a: Addr)                 // ... or frees it

  function Next(s: State, a: Addr): Ptr
  {
    if a in s.next then s.next[a] else Null
  }

  /** What a node pushed on `last` gets as its next. */
  function Below(last: Ptr): Ptr
  {
    if last == BlockedTag then Null else last
  }

  function Init(): State
  {
    State(Null, map[], map[], map[], map[], Idle, [], [], [], [], 0, 0, 0)
  }

  predicate Enabled(s: State, x: Action)
  {
    match x
    case Push(t, a, m) => (t in s.pushers ==> s.pushers[t].Returned?) && a !in s.owner
    case Advance(t, _) => t in s.pushers && !s.pushers[t].Returned?
    case TryBlock => s.reader.Idle?
    case TryUnblock => s.reader.Idle?
    // the assertions at the head of take_head
    case TakeHead(newHead) =>
      && s.reader.Idle? && (newHead == Null || newHead == ClosedTag)
      && s.stack != ClosedTag && (s.stack == BlockedTag ==> newHead == ClosedTag)
    case Read(_) => !s.reader.Idle?
    case Scribble(a, p) => a in s.owner && s.owner[a] == Handed
    case Release(a) => a in s.owner && s.owner[a] == Handed
  }

  function Apply(s: State, x: Action): State
    requires Enabled(s, x)
  {
    match x
    case Push(t, a, m) =>
      s.(owner := s.owner[a := ByPusher(t)], msg := s.msg[a := m], pushers := s.pushers[t := Load(a)])
    case Advance(t, spurious) => AdvancePusher(s, t, s.pushers[t], spurious)
    case TryBlock => if s.stack == Null then s.(stack := BlockedTag, blocks := s.blocks + 1) else s
    case TryUnblock => if s.stack == BlockedTag then s.(stack := Null, unblocks := s.unblocks + 1) else s
    case TakeHead(newHead) => s.(reader := Taking(newHead, s.stack))
    case Read(spurious) => AdvanceReader(s, spurious)
    case Scribble(a, p) => s.(next := s.next[a := p])
    case Release(a) => s.(owner := s.owner - {a})
  }

  function AdvancePusher(s: State, t: Tid, p: Pusher, spurious: bool): State
    requires !p.Returned?
  {
    match p
    case Load(a) => s.(pushers := s.pushers[t := Test(a, s.stack)])
    case Test(a, last) =>
      if last == ClosedTag then
        // the message is freed with its own deleter
        s.(owner := s.owner - {a}, pushers := s.pushers[t := Returned(QueueClosed)])
      else
        s.(next := s.next[a := Below(last)], pushers := s.pushers[t := Exchange(a, last)])
    case Exchange(a, last) =>
      // a strong exchange compares addresses only
      if s.stack == last then
        s.(stack := Node(a), owner := s.owner[a := InStack],
           pushers := s.pushers[t := Returned(if last == BlockedTag then UnblockedReader else Success)],
           chain := [a] + s.chain,
           accepted := s.accepted + (if a in s.msg then [s.msg[a]] else []),
           wakeups := s.wakeups + (if last == BlockedTag then 1 else 0))
      else
        s.(pushers := s.pushers[t := Test(a, s.stack)])
  }

  function AdvanceReader(s: State, spurious: bool): State
    requires !s.reader.Idle?
  {
    match s.reader
    case Taking(newHead, last) =>
      if last == newHead then s.(reader := Idle)
      else if s.stack == last && !spurious then
        s.(stack := newHead,
           reader := if last == Null || last == BlockedTag then Idle else Walking(last),
           chain := [], walk := s.chain,
           owner := map a | a in s.owner :: if s.owner[a] == InStack then ByReader else s.owner[a],
           taken := s.taken + Reversed(Messages(s.msg, s.chain)))
      else s.(reader := Taking(newHead, s.stack))
    case Walking(ptr) =>
      if ptr.Node? then
        // the next pointer is read before the node is handed on
        s.(reader := Walking(Next(s, ptr.addr)), owner := s.owner[ptr.addr := Handed],
           walk := if s.walk == [] then [] else s.walk[1..])
      else s.(reader := Idle)
  }

  function Messages(msg: map<Addr, Msg>, chain: seq<Addr>): seq<Msg>
  {
    if chain == [] then [] else (if chain[0] in msg then [msg[chain[0]]] else []) + Messages(msg, chain[1..])
  }

  predicate IsRun(s: State, actions: seq<Action>)
    decreases |actions|
  {
    actions == [] || (Enabled(s, actions[0]) && IsRun(Apply(s, actions[0]), actions[1..]))
  }

  function After(s: State, actions: seq<Action>): State
    requires IsRun(s, actions)
    decreases |actions|
  {
    if actions == [] then s else After(Apply(s, actions[0]), actions[1..])
  }

  // ---------- the invariant ----------

  /** The nodes of a chain are linked in order by their next pointers. */
  ghost predicate Linked(s: State, chain: seq<Addr>, o: Owner)
  {
    && (forall i :: 0 <= i < |chain| ==> chain[i] in s.owner && s.owner[chain[i]] == o && chain[i] in s.msg)
    && (forall i, j :: 0 <= i < j < |chain| ==> chain[i] != chain[j])
    && (forall i, j :: 0 <= i < j < |chain| && j == i + 1 ==> Next(s, chain[i]) == Node(chain[j]))
    && (chain != [] ==> Next(s, chain[|chain| - 1]) == Null)
  }

  function Top(chain: seq<Addr>): Ptr
  {
    if chain == [] then Null else Node(chain[0])
  }

  ghost predicate StackInv(s: State)
  {
    && Linked(s, s.chain, InStack)
    && (forall a :: a in s.owner && s.owner[a] == InStack ==> a in s.chain)
    && (if s.stack == BlockedTag || s.stack == ClosedTag then s.chain == [] else s.stack == Top(s.chain))
  }

  ghost predicate ReaderInv(s: State)
  {
    && Linked(s, s.walk, ByReader)
    && (s.walk != [] ==> s.reader.Walking?)
    && (s.reader.Walking? ==> s.reader.ptr == Top(s.walk))
    && (s.reader.Taking? ==> s.stack != ClosedTag && (s.reader.newHead == Null || s.reader.newHead == ClosedTag))
    && (s.reader.Taking? && s.reader.newHead == Null ==> s.reader.last != BlockedTag && s.stack != BlockedTag)
  }

  ghost predicate PusherInv(s: State)
  {
    forall t :: t in s.pushers && !s.pushers[t].Returned? ==>
      var p := s.pushers[t];
      && p.a in s.owner && s.owner[p.a] == ByPusher(t) && p.a in s.msg
      && (p.Exchange? ==> p.last != ClosedTag && Next(s, p.a) == Below(p.last))
      && (p.Test? && p.last == ClosedTag ==> s.stack == ClosedTag)
  }

  ghost predicate HistoryInv(s: State)
  {
    && s.accepted == s.taken + Reversed(Messages(s.msg, s.chain))
    && s.blocks >= s.wakeups + s.unblocks + (if s.stack == BlockedTag then 1 else 0)
    && (s.stack != ClosedTag ==> s.blocks == s.wakeups + s.unblocks + (if s.stack == BlockedTag then 1 else 0))
  }

  ghost predicate Inv(s: State)
  {
    StackInv(s) && ReaderInv(s) && PusherInv(s) && HistoryInv(s)
  }

  lemma {:induction false} MessagesDepend(msg: map<Addr, Msg>, more: map<Addr, Msg>, chain: seq<Addr>)
    requires forall i :: 0 <= i < |chain| ==> chain[i] in msg && chain[i] in more && more[chain[i]] == msg[chain[i]]
    ensures Messages(more, chain) == Messages(msg, chain)
    decreases |chain|
  {
    if chain != [] {
      assert forall i :: 0 <= i < |chain[1..]| ==> chain[1..][i] == chain[i + 1];
      MessagesDepend(msg, more, chain[1..]);
    }
  }

  /** The step leaves every node owned by `o` as it was. */
  ghost predicate Keeps(s: State, s': State, o: Owner)
  {
    forall a :: a in s.owner && s.owner[a] == o ==>
      && a in s'.owner && s'.owner[a] == o && Next(s', a) == Next(s, a)
      && (a in s.msg ==> a in s'.msg && s'.msg[a] == s.msg[a])
  }

  lemma LinkedKept(s: State, s': State, chain: seq<Addr>, o: Owner)
    requires Linked(s, chain, o) && Keeps(s, s', o)
    ensures Linked(s', chain, o) && Messages(s'.msg, chain) == Messages(s.msg, chain)
  {
    MessagesDepend(s.msg, s'.msg, chain);
  }

  // The stack, the reader and the histories after a step that leaves the shared word and its chain alone.
  lemma StackKept(s: State, s': State)
    requires StackInv(s) && ReaderInv(s) && HistoryInv(s) && Keeps(s, s', InStack) && Keeps(s, s', ByReader)
    requires forall a :: a in s'.owner && s'.owner[a] == InStack ==> a in s.owner && s.owner[a] == InStack
    requires s'.stack == s.stack && s'.chain == s.chain && s'.walk == s.walk && s'.reader == s.reader
    requires s'.accepted == s.accepted && s'.taken == s.taken
    requires s'.blocks == s.blocks && s'.unblocks == s.unblocks && s'.wakeups == s.wakeups
    ensures StackInv(s') && ReaderInv(s') && HistoryInv(s')
  {
    LinkedKept(s, s', s.chain, InStack);
    LinkedKept(s, s', s.walk, ByReader);
  }

  // The pushers' facts after a step of `t` that leaves every other pusher's node alone.
  lemma PushersKept(s: State, s': State, t: Tid)
    requires PusherInv(s) && t in s'.pushers
    requires forall u :: u != t ==> (u in s'.pushers <==> u in s.pushers) && (u in s.pushers ==> s'.pushers[u] == s.pushers[u])
    requires forall u :: u != t ==> Keeps(s, s', ByPusher(u))
    requires var p := s'.pushers[t];
             !p.Returned? ==>
               && p.a in s'.owner && s'.owner[p.a] == ByPusher(t) && p.a in s'.msg
               && (p.Exchange? ==> p.last != ClosedTag && Next(s', p.a) == Below(p.last))
               && (p.Test? && p.last == ClosedTag ==> s'.stack == ClosedTag)
    requires s.stack == ClosedTag ==> s'.stack == ClosedTag
    ensures PusherInv(s')
  {
  }

  lemma PushInv(s: State, t: Tid, a: Addr, m: Msg)
    requires Inv(s) && (t in s.pushers ==> s.pushers[t].Returned?) && a !in s.owner
    ensures Inv(s.(owner := s.owner[a := ByPusher(t)], msg := s.msg[a := m], pushers := s.pushers[t := Load(a)]))
  {
    var s' := s.(owner := s.owner[a := ByPusher(t)], msg := s.msg[a := m], pushers := s.pushers[t := Load(a)]);
    assert forall o :: o != ByPusher(t) ==> Keeps(s, s', o);
    PushStack(s, s', t);
    PushersKept(s, s', t);
  }

  lemma PushStack(s: State, s': State, t: Tid)
    requires Inv(s) && Keeps(s, s', InStack) && Keeps(s, s', ByReader)
    requires s' == s.(owner := s'.owner, msg := s'.msg, pushers := s'.pushers)
    requires forall a :: a in s'.owner && s'.owner[a] == InStack ==> a in s.owner && s.owner[a] == InStack
    ensures StackInv(s') && ReaderInv(s') && HistoryInv(s')
  {
    StackKept(s, s');
  }

  // A pusher that only reads.
  lemma PusherReads(s: State, t: Tid, q: Pusher)
    requires Inv(s) && t in s.pushers && !s.pushers[t].Returned? && q == Test(s.pushers[t].a, s.stack)
    ensures Inv(s.(pushers := s.pushers[t := q]))
  {
    var s' := s.(pushers := s.pushers[t := q]);
    StackKept(s, s');
    PushersKept(s, s', t);
  }

  lemma RefusedStep(s: State, t: Tid, p: Pusher)
    requires Inv(s) && t in s.pushers && s.pushers[t] == p && p.Test? && p.last == ClosedTag
    ensures Inv(s.(owner := s.owner - {p.a}, pushers := s.pushers[t := Returned(QueueClosed)]))
  {
    var s' := s.(owner := s.owner - {p.a}, pushers := s.pushers[t := Returned(QueueClosed)]);
    StackKept(s, s');
    PushersKept(s, s', t);
  }

  lemma RelinkStep(s: State, t: Tid, p: Pusher)
    requires Inv(s) && t in s.pushers && s.pushers[t] == p && p.Test? && p.last != ClosedTag
    ensures Inv(s.(next := s.next[p.a := Below(p.last)], pushers := s.pushers[t := Exchange(p.a, p.last)]))
  {
    var s' := s.(next := s.next[p.a := Below(p.last)], pushers := s.pushers[t := Exchange(p.a, p.last)]);
    StackKept(s, s');
    PushersKept(s, s', t);
  }

  lemma PusherStep(s: State, t: Tid, spurious: bool, p: Pusher)
    requires Inv(s) && t in s.pushers && s.pushers[t] == p && !p.Returned?
    ensures Inv(AdvancePusher(s, t, p, spurious))
  {
    match p
    case Load(a) => PusherReads(s, t, Test(a, s.stack));
    case Test(a, last) => if last == ClosedTag { RefusedStep(s, t, p); } else { RelinkStep(s, t, p); }
    case Exchange(a, last) =>
      if s.stack == last {
        var s' := AdvancePusher(s, t, p, spurious);
        PushersKept(s, s', t);
        Exchanged(s, s', t, p);
      } else {
        PusherReads(s, t, Test(a, s.stack));
      }
  }

  /** The exchange links the node onto the chain, whatever the address it compared was in between. */
  lemma Exchanged(s: State, s': State, t: Tid, p: Pusher)
    requires Inv(s) && t in s.pushers && s.pushers[t] == p && p.Exchange? && s.stack == p.last
    requires s' == AdvancePusher(s, t, p, false)
    ensures StackInv(s') && ReaderInv(s') && HistoryInv(s')
  {
    assert Keeps(s, s', ByReader);
    LinkedKept(s, s', s.walk, ByReader);
    ExchangedStack(s, s', p.a);
    ExchangedHistory(s, s', p.a);
  }

  lemma ExchangedHistory(s: State, s': State, a: Addr)
    requires HistoryInv(s) && s.stack != ClosedTag && a in s.msg
    requires s'.stack == Node(a) && s'.msg == s.msg && s'.chain == [a] + s.chain && s'.taken == s.taken
    requires s'.accepted == s.accepted + [s.msg[a]] && s'.blocks == s.blocks && s'.unblocks == s.unblocks
    requires s'.wakeups == s.wakeups + (if s.stack == BlockedTag then 1 else 0)
    ensures HistoryInv(s')
  {
    assert s'.chain[1..] == s.chain && s'.chain[0] == a;
    var m := Messages(s.msg, s.chain);
    assert Messages(s'.msg, s'.chain) == [s.msg[a]] + m;
    assert ([s.msg[a]] + m)[1..] == m;
  }

  lemma ExchangedStack(s: State, s': State, a: Addr)
    requires StackInv(s) && s.stack != ClosedTag && Next(s, a) == Below(s.stack) && a in s.msg
    requires a in s.owner && s.owner[a] != InStack
    requires s'.stack == Node(a) && s'.owner == s.owner[a := InStack] && s'.chain == [a] + s.chain
    requires s'.next == s.next && s'.msg == s.msg
    ensures StackInv(s')
  {
    LinkedKept(s, s', s.chain, InStack);
    Linked1(s', a, s.chain);
  }

  // A node whose next is the top of a chain extends it.
  lemma Linked1(s: State, a: Addr, chain: seq<Addr>)
    requires Linked(s, chain, InStack) && a in s.owner && s.owner[a] == InStack && a in s.msg && a !in chain
    requires Next(s, a) == Top(chain)
    ensures Linked(s, [a] + chain, InStack)
  {
    var longer := [a] + chain;
    assert forall i :: 0 < i < |longer| ==> longer[i] == chain[i - 1];
  }

  // A reader that only reads, or changes one tag for another.
  lemma ReaderReads(s: State, s': State)
    requires Inv(s) && s' == s.(stack := s'.stack, reader := s'.reader, blocks := s'.blocks, unblocks := s'.unblocks)
    requires s'.stack == s.stack || (s.chain == [] && s.stack != ClosedTag && (s'.stack == Null || s'.stack == BlockedTag))
    requires s.walk == [] && !s'.reader.Walking?
    requires s'.reader.Taking? ==> s'.stack != ClosedTag && (s'.reader.newHead == Null || s'.reader.newHead == ClosedTag)
    requires s'.reader.Taking? && s'.reader.newHead == Null ==> s'.reader.last != BlockedTag && s'.stack != BlockedTag
    requires s'.blocks - s'.unblocks - (if s'.stack == BlockedTag then 1 else 0) == s.blocks - s.unblocks - (if s.stack == BlockedTag then 1 else 0)
    ensures Inv(s')
  {
    LinkedKept(s, s', s.chain, InStack);
    assert PusherInv(s');
  }

  lemma TakeStep(s: State, spurious: bool)
    requires Inv(s) && s.reader.Taking?
    ensures Inv(AdvanceReader(s, spurious))
  {
    var s' := AdvanceReader(s, spurious);
    if s.reader.last != s.reader.newHead && s.stack == s.reader.last && !spurious {
      Taken(s, s');
    } else {
      ReaderReads(s, s');
    }
  }

  lemma Taken(s: State, s': State)
    requires Inv(s) && s.reader.Taking? && s.reader.last != s.reader.newHead && s.stack == s.reader.last
    requires s' == AdvanceReader(s, false)
    ensures Inv(s')
  {
    assert s.walk == [];
    assert Linked(s', s.chain, ByReader);
    assert Linked(s', [], InStack);
    assert s.accepted == s'.taken + Reversed([]);
  }

  lemma WalkStep(s: State, spurious: bool)
    requires Inv(s) && s.reader.Walking?
    ensures Inv(AdvanceReader(s, spurious))
  {
    var s' := AdvanceReader(s, spurious);
    if s.walk != [] {
      LinkedTail(s, s.walk);
      LinkedTailKept(s, s');
      WalkedStack(s, s', s.walk[0]);
    }
  }

  lemma WalkedStack(s: State, s': State, a: Addr)
    requires StackInv(s) && HistoryInv(s) && PusherInv(s) && a in s.owner && s.owner[a] == ByReader
    requires s' == s.(owner := s.owner[a := Handed], reader := s'.reader, walk := s'.walk)
    ensures StackInv(s') && HistoryInv(s') && PusherInv(s')
  {
    LinkedKept(s, s', s.chain, InStack);
  }

  lemma LinkedTail(s: State, chain: seq<Addr>)
    requires chain != [] && Linked(s, chain, ByReader)
    ensures Linked(s, chain[1..], ByReader) && chain[0] !in chain[1..] && Next(s, chain[0]) == Top(chain[1..])
  {
    assert forall i :: 0 <= i < |chain[1..]| ==> chain[1..][i] == chain[i + 1];
    if |chain| > 1 {
      assert Next(s, chain[0]) == Node(chain[1]);
    }
  }

  lemma LinkedTailKept(s: State, s': State)
    requires s.reader.Walking? && s.walk != [] && s.reader.ptr == Node(s.walk[0]) && s' == AdvanceReader(s, false)
    requires Linked(s, s.walk[1..], ByReader) && s.walk[0] !in s.walk[1..]
    ensures Linked(s', s'.walk, ByReader)
  {
  }

  lemma StepInv(s: State, x: Action)
    requires Inv(s) && Enabled(s, x)
    ensures Inv(Apply(s, x))
  {
    match x
    case Push(t, a, m) => PushInv(s, t, a, m);
    case Advance(t, spurious) =>
      PusherStep(s, t, spurious, s.pushers[t]);
    case TryBlock => ReaderReads(s, Apply(s, x));
    case TryUnblock => ReaderReads(s, Apply(s, x));
    case TakeHead(newHead) => ReaderReads(s, Apply(s, x));
    case Read(spurious) => if s.reader.Taking? { TakeStep(s, spurious); } else { WalkStep(s, spurious); }
    case Scribble(_, _) => ScribbleStep(s, x, Apply(s, x));
    case Release(_) => ReleaseStep(s, x, Apply(s, x));
  }

  lemma ScribbleStep(s: State, x: Action, s': State)
    requires Inv(s) && Enabled(s, x) && x.Scribble? && s' == Apply(s, x)
    ensures Inv(s')
  {
    StackKept(s, s');
    assert PusherInv(s');
  }

  lemma ReleaseStep(s: State, x: Action, s': State)
    requires Inv(s) && Enabled(s, x) && x.Release? && s' == Apply(s, x)
    ensures Inv(s')
  {
    StackKept(s, s');
    assert PusherInv(s');
  }

  lemma {:induction false} RunInv(s: State, actions: seq<Action>)
    requires Inv(s) && IsRun(s, actions)
    ensures Inv(After(s, actions))
    decreases |actions|
  {
    if actions != [] {
      StepInv(s, actions[0]);
      RunInv(Apply(s, actions[0]), actions[1..]);
    }
  }

  // ---------- the atomic object ----------

  /** What the inbox is to its users: closed, blocked, or a sequence of messages, newest first. */
  datatype Abstract = AClosed | ABlocked | AOpen(msgs: seq<Msg>)

  datatype Op = NoOp | DoPush(m: Msg) | DoBlock | DoUnblock | DoTake | DoClose

  function AbsApply(a: Abstract, op: Op): Abstract
  {
    match op
    case NoOp => a
    case DoPush(m) => if a.AClosed? then a else AOpen([m] + (if a.AOpen? then a.msgs else []))
    case DoBlock => if a == AOpen([]) then ABlocked else a
    case DoUnblock => if a.ABlocked? then AOpen([]) else a
    case DoTake => if a.AOpen? then AOpen([]) else a
    case DoClose => AClosed
  }

  function AbsResult(a: Abstract): EnqueueResult
  {
    match a case AClosed => QueueClosed case ABlocked => UnblockedReader case AOpen(_) => Success
  }

  ghost function Abs(s: State): Abstract
  {
    if s.stack == ClosedTag then AClosed else if s.stack == BlockedTag then ABlocked else AOpen(Messages(s.msg, s.chain))
  }

  /** The operation that takes effect with a step, if any. */
  function TakesEffect(s: State, x: Action): Op
    requires Enabled(s, x)
  {
    match x
    case TryBlock => DoBlock
    case TryUnblock => DoUnblock
    case Advance(t, _) =>
      var p := s.pushers[t];
      if p.Exchange? && s.stack == p.last && p.a in s.msg then DoPush(s.msg[p.a]) else NoOp
    case Read(spurious) =>
      if s.reader.Taking? && s.reader.last != s.reader.newHead && s.stack == s.reader.last && !spurious then
        (if s.reader.newHead == ClosedTag then DoClose else DoTake)
      else NoOp
    case _ => NoOp
  }

  lemma SameView(s: State, s': State)
    requires StackInv(s) && s'.stack == s.stack && s'.chain == s.chain
    requires forall a :: a in s.chain && a in s.msg ==> a in s'.msg && s'.msg[a] == s.msg[a]
    ensures Abs(s') == Abs(s)
  {
    MessagesDepend(s.msg, s'.msg, s.chain);
  }

  lemma AdvanceRefines(s: State, t: Tid, spurious: bool, p: Pusher)
    requires Inv(s) && t in s.pushers && s.pushers[t] == p && !p.Returned?
    ensures Abs(AdvancePusher(s, t, p, spurious)) == AbsApply(Abs(s), TakesEffect(s, Advance(t, spurious)))
  {
    var s' := AdvancePusher(s, t, p, spurious);
    if p.Exchange? && s.stack == p.last {
      assert s'.chain[1..] == s.chain && s'.chain[0] == p.a;
    } else {
      SameView(s, s');
    }
  }

  lemma TagsRefine(s: State)
    requires StackInv(s)
    ensures s.stack == Null <==> Abs(s) == AOpen([])
  {
    if s.chain != [] {
      assert s.chain[0] in s.msg;
    }
  }

  lemma ReadRefines(s: State, spurious: bool)
    requires Inv(s) && !s.reader.Idle?
    ensures Abs(AdvanceReader(s, spurious)) == AbsApply(Abs(s), TakesEffect(s, Read(spurious)))
  {
    var s' := AdvanceReader(s, spurious);
    if TakesEffect(s, Read(spurious)) == NoOp {
      SameView(s, s');
    }
  }

  /** Every step of the chain of nodes is one operation of the atomic object, or none. */
  lemma StepRefines(s: State, x: Action)
    requires Inv(s) && Enabled(s, x)
    ensures Abs(Apply(s, x)) == AbsApply(Abs(s), TakesEffect(s, x))
  {
    match x
    case Push(t, a, m) => SameView(s, Apply(s, x));
    case Advance(t, spurious) => AdvanceRefines(s, t, spurious, s.pushers[t]);
    case TryBlock => TagsRefine(s);
    case TryUnblock => TagsRefine(s);
    case TakeHead(_) => SameView(s, Apply(s, x));
    case Read(spurious) => ReadRefines(s, spurious);
    case Scribble(_, _) => SameView(s, Apply(s, x));
    case Release(_) => SameView(s, Apply(s, x));
  }

  /** A push returns what the object's state at that moment calls for. */
  lemma PushResultRefines(s: State, t: Tid, spurious: bool)
    requires Inv(s) && Enabled(s, Advance(t, spurious))
    ensures var p := AdvancePusher(s, t, s.pushers[t], spurious).pushers[t];
            p.Returned? ==> p.result == AbsResult(Abs(s))
  {
  }

  /** Taking all hands the reader the stack's messages newest first and leaves the stack empty. */
  lemma TakeRefines(s: State, spurious: bool)
    requires Inv(s) && s.reader.Taking? && TakesEffect(s, Read(spurious)) != NoOp
    ensures var s' := AdvanceReader(s, spurious);
            && (Abs(s).AOpen? ==> Messages(s'.msg, s'.walk) == Abs(s).msgs && (s'.walk != [] ==> s'.reader == Walking(Node(s'.walk[0]))))
            && s'.chain == []
  {
    StepInv(s, Read(spurious));
  }

  /**
   Over every run: each accepted message left the stack once, in the order of acceptance, or is still
   on it; a successful block causes at most one wake-up; closed is for ever.
   */
  lemma Conserved(actions: seq<Action>)
    requires IsRun(Init(), actions)
    ensures var s := After(Init(), actions);
            && s.accepted == s.taken + Reversed(Messages(s.msg, s.chain))
            && s.wakeups <= s.blocks
            && (s.stack == ClosedTag ==> s.chain == [] && s.accepted == s.taken)
  {
    RunInv(Init(), actions);
  }

  lemma ClosedAbsorbs(s: State, x: Action)
    requires Inv(s) && Enabled(s, x) && Abs(s).AClosed?
    ensures Abs(Apply(s, x)).AClosed? && Apply(s, x).accepted == s.accepted
  {
    StepRefines(s, x);
  }
}
