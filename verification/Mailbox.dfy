/**
 The default mailbox: two cached lists, urgent and normal, in front of the inbox that senders push to.
 A push and a taking of the inbox are single steps here; `LifoInboxes` proves that they may be.
 */
module Mailboxes {
  import opened LinkedLists
  import opened Wrappers

  /** The inbox's word: closed, reader blocked, or the newest node of a chain that ends in null. */
  datatype Inbox = Closed | Blocked | Open(newest: Node?)

  // ---------- sequences of messages ----------

  /** The messages of one priority, in order. */
  function Of(s: seq<Node>, urgent: bool): seq<Node>
  {
    if s == [] then []
    else (if s[0].urgent == urgent then [s[0]] else []) + Of(s[1..], urgent)
  }

  lemma {:induction false} OfAppend(s: seq<Node>, t: seq<Node>, urgent: bool)
    ensures Of(s + t, urgent) == Of(s, urgent) + Of(t, urgent)
  {
    if s == [] {
      assert s + t == t;
    } else {
      var first := if s[0].urgent == urgent then [s[0]] else [];
      OfAppend(s[1..], t, urgent);
      assert (s + t)[1..] == s[1..] + t && (s + t)[0] == s[0];
      assert first + (Of(s[1..], urgent) + Of(t, urgent)) == (first + Of(s[1..], urgent)) + Of(t, urgent);
    }
  }

  lemma {:induction false} ReversedAppend(s: seq<Node>, x: Node)
    ensures Reversed(s + [x]) == [x] + Reversed(s)
  {
    if s == [] {
      assert [] + [x] == [x];
    } else {
      assert (s + [x])[1..] == s[1..] + [x];
      ReversedAppend(s[1..], x);
    }
  }

  lemma {:induction false} ReversedSame(s: seq<Node>)
    ensures multiset(Reversed(s)) == multiset(s)
  {
    if s != [] {
      ReversedSame(s[1..]);
      assert s == [s[0]] + s[1..];
    }
  }

  lemma {:induction false} OfSplits(s: seq<Node>)
    ensures multiset(s) == multiset(Of(s, true)) + multiset(Of(s, false))
  {
    if s != [] {
      OfSplits(s[1..]);
      assert s == [s[0]] + s[1..];
    }
  }

  /** What waits at one priority, in the order it will be popped: the cached queue, then the inbox. */
  function Waiting(queue: seq<Node>, stacked: seq<Node>, urgent: bool): seq<Node>
  {
    queue + Reversed(Of(stacked, urgent))
  }

  /** Messages of one priority are popped in the order in which they arrived, and none is lost. */
  predicate Ordered(arrived: seq<Node>, popped: seq<Node>, queue: seq<Node>, stacked: seq<Node>, urgent: bool)
  {
    Of(arrived, urgent) == Of(popped, urgent) + Waiting(queue, stacked, urgent)
  }

  lemma PushKeepsOrder(arrived: seq<Node>, popped: seq<Node>, queue: seq<Node>, stacked: seq<Node>, m: Node, u: bool)
    requires Ordered(arrived, popped, queue, stacked, u)
    ensures Ordered(arrived + [m], popped, queue, [m] + stacked, u)
    ensures Waiting(queue, [m] + stacked, u) == Waiting(queue, stacked, u) + (if m.urgent == u then [m] else [])
  {
    var d := if m.urgent == u then [m] else [];
    assert Of([m], u) == d + [];
    OfAppend(arrived, [m], u);
    PushReversed(stacked, m, u);
    var r := Reversed(Of(stacked, u));
    assert queue + (r + d) == (queue + r) + d;
    assert Of(popped, u) + ((queue + r) + d) == (Of(popped, u) + (queue + r)) + d;
  }

  lemma PushReversed(stacked: seq<Node>, m: Node, u: bool)
    ensures Reversed(Of([m] + stacked, u)) == Reversed(Of(stacked, u)) + (if m.urgent == u then [m] else [])
  {
    var t := Of(stacked, u);
    assert ([m] + stacked)[1..] == stacked;
    if m.urgent == u {
      assert ([m] + t)[1..] == t;
    } else {
      assert [] + t == t;
    }
  }

  /** Linked newest first and ending in null, as pushers leave it. */
  ghost predicate Stack(newest: Node?, s: seq<Node>)
    reads s`next
  {
    && Distinct(s)
    && Chained(s)
    && (if s == [] then newest == null else newest == s[0] && s[|s| - 1].next == null)
  }

  /** No two of the chains share a node. */
  predicate Separate(a: seq<Node>, b: seq<Node>, c: seq<Node>)
  {
    && (forall n <- a :: n !in b && n !in c)
    && (forall n <- b :: n !in a && n !in c)
  }

  lemma StackTail(newest: Node, s: seq<Node>)
    requires s != [] && Stack(newest, s)
    ensures Stack(s[0].next, s[1..]) && s[0] !in s[1..]
  {
    var t := s[1..];
    assert forall i :: 0 <= i < |t| ==> t[i] == s[i + 1];
    if |t| > 0 {
      assert s[0].next == s[1];
    }
  }

  lemma StackPushed(m: Node, newest: Node?, s: seq<Node>)
    requires Stack(newest, s) && m !in s && m.next == newest
    ensures Stack(m, [m] + s)
  {
    var t := [m] + s;
    assert forall i :: 1 <= i < |t| ==> t[i] == s[i - 1];
    assert s != [] ==> t[|t| - 1] == s[|s| - 1];
  }

  class Mailbox {
    const urgent_queue_: LinkedList
    const normal_queue_: LinkedList
    var inbox_: Inbox
    ghost var stacked: seq<Node>       // the inbox's chain, newest first
    ghost var arrived: seq<Node>       // every message accepted so far, in order
    ghost var popped: seq<Node>        // every message handed to the reader, in order

    ghost predicate Sound()
      reads this, urgent_queue_, normal_queue_
      reads urgent_queue_.chain`next, normal_queue_.chain`next, stacked`next
      reads urgent_queue_.tail`next, normal_queue_.tail`next
    {
      && urgent_queue_ != normal_queue_
      && Separate(urgent_queue_.chain, normal_queue_.chain, stacked)
      && urgent_queue_.Valid() && normal_queue_.Valid()
      && (if inbox_.Open? then Stack(inbox_.newest, stacked) else stacked == [])
      && (inbox_.Blocked? ==> Cached() == 0)
    }

    /** Well formed, and every message accepted so far popped or waiting, in order. */
    ghost predicate Valid()
      reads this, urgent_queue_, normal_queue_
      reads urgent_queue_.chain`next, normal_queue_.chain`next, stacked`next
      reads urgent_queue_.tail`next, normal_queue_.tail`next
    {
      && Sound()
      && (!inbox_.Closed? ==> InOrder(true) && InOrder(false))
    }

    ghost function Queue(urgent: bool): LinkedList
    {
      if urgent then urgent_queue_ else normal_queue_
    }

    function Cached(): nat
      reads urgent_queue_`size_, normal_queue_`size_
    {
      urgent_queue_.size_ + normal_queue_.size_
    }

    ghost function Pending(urgent: bool): seq<Node>
      requires |Queue(urgent).chain| >= 2
      reads this, urgent_queue_, normal_queue_
    {
      Waiting(Queue(urgent).Nodes(), stacked, urgent)
    }

    ghost predicate InOrder(urgent: bool)
      requires |Queue(urgent).chain| >= 2
      reads this, urgent_queue_, normal_queue_
    {
      Ordered(arrived, popped, Queue(urgent).Nodes(), stacked, urgent)
    }

    constructor ()
      ensures Valid() && arrived == [] && popped == [] && inbox_ == Open(null)
    {
      urgent_queue_ := new LinkedList();
      normal_queue_ := new LinkedList();
      inbox_ := Open(null);
      stacked, arrived, popped := [], [], [];
    }

    /** Senders push messages the reader has not seen; the reader stands still. */
    method SendersPush()
      requires Sound()
      modifies this`inbox_, this`stacked, this`arrived
      ensures Sound() && (old(Valid()) ==> Valid()) && old(arrived) <= arrived
      ensures multiset(arrived) + multiset(old(stacked)) == multiset(old(arrived)) + multiset(stacked)
      ensures old(inbox_).Blocked? ==> inbox_.Blocked? || |arrived| > |old(arrived)|
      ensures inbox_.Closed? <==> old(inbox_.Closed?)
      ensures inbox_.Blocked? ==> old(inbox_.Blocked?)
      ensures old(inbox_).Closed? ==> arrived == old(arrived)
      ensures forall i :: 0 <= i < |stacked| ==> stacked[i] in old(stacked) || fresh(stacked[i])
    {
    }

    method PushBack(m: Node) returns (r: EnqueueResult)
      requires Valid() && m !in urgent_queue_.chain && m !in normal_queue_.chain && m !in stacked
      modifies this`inbox_, this`stacked, this`arrived, m`next
      ensures Valid()
      ensures r == if old(inbox_).Closed? then QueueClosed
                   else if old(inbox_).Blocked? then UnblockedReader else Success
      ensures if r == QueueClosed then inbox_.Closed? && arrived == old(arrived)
              else inbox_.Open? && arrived == old(arrived) + [m]
      ensures r != QueueClosed ==> Pending(true) == old(Pending(true)) + (if m.urgent then [m] else [])
      ensures r != QueueClosed ==> Pending(false) == old(Pending(false)) + (if m.urgent then [] else [m])
    {
      if inbox_.Closed? { return QueueClosed; }
      r := if inbox_.Blocked? then UnblockedReader else Success;
      Accept(m);
    }

    method Accept(m: Node)
      requires Valid() && !inbox_.Closed? && m !in urgent_queue_.chain && m !in normal_queue_.chain && m !in stacked
      modifies this`inbox_, this`stacked, this`arrived, m`next
      ensures Valid() && inbox_ == Open(m) && arrived == old(arrived) + [m]
      ensures Pending(true) == old(Pending(true)) + (if m.urgent then [m] else [])
      ensures Pending(false) == old(Pending(false)) + (if m.urgent then [] else [m])
    {
      ghost var uq, nq, was := urgent_queue_.Nodes(), normal_queue_.Nodes(), stacked;
      PushKeepsOrder(arrived, popped, uq, was, m, true);
      PushKeepsOrder(arrived, popped, nq, was, m, false);
      LinkNewest(m);
      StackPushed(m, m.next, was);
      PushSeparate(urgent_queue_.chain, normal_queue_.chain, was, m);
      Exchange(m, [m] + was, arrived + [m]);
    }

    /** The exchange that publishes `m`, as the newest of `chain`. */
    method Exchange(m: Node, ghost chain: seq<Node>, ghost history: seq<Node>)
      requires Sound() && !inbox_.Closed?
      requires chain != [] && Stack(m, chain) && Separate(urgent_queue_.chain, normal_queue_.chain, chain)
      requires Ordered(history, popped, urgent_queue_.Nodes(), chain, true)
      requires Ordered(history, popped, normal_queue_.Nodes(), chain, false)
      modifies this`inbox_, this`stacked, this`arrived
      ensures Valid() && inbox_ == Open(m) && stacked == chain && arrived == history
    {
      Publish(m, chain);
      Note(history);
    }

    method Publish(m: Node, ghost chain: seq<Node>)
      requires Sound() && chain != [] && Stack(m, chain)
      requires Separate(urgent_queue_.chain, normal_queue_.chain, chain)
      modifies this`inbox_, this`stacked
      ensures Sound() && inbox_ == Open(m) && stacked == chain
    {
      inbox_ := Open(m);
      stacked := chain;
    }

    ghost method Note(history: seq<Node>)
      requires Sound()
      requires Ordered(history, popped, urgent_queue_.Nodes(), stacked, true)
      requires Ordered(history, popped, normal_queue_.Nodes(), stacked, false)
      modifies this`arrived
      ensures Valid() && arrived == history
    {
      arrived := history;
    }

    method LinkNewest(m: Node)
      requires Valid() && m !in urgent_queue_.chain && m !in normal_queue_.chain && m !in stacked
      modifies m`next
      ensures Valid() && Stack(m.next, stacked)
    {
      assert urgent_queue_.tail == urgent_queue_.chain[|urgent_queue_.chain| - 1];
      assert normal_queue_.tail == normal_queue_.chain[|normal_queue_.chain| - 1];
      m.next := if inbox_.Open? then inbox_.newest else null;
      KeptList(urgent_queue_);
      KeptList(normal_queue_);
      assert inbox_.Open? ==> Stack(inbox_.newest, stacked);
    }

    method TryBlock() returns (ok: bool)
      requires Valid()
      modifies this`inbox_, this`stacked, this`arrived
      ensures Valid() && old(arrived) <= arrived
      ensures ok ==> inbox_.Blocked? && Pending(true) == [] && Pending(false) == []
      ensures !ok ==> Cached() != 0 || inbox_ != Open(null)
      ensures !ok ==> (inbox_.Blocked? ==> old(inbox_).Blocked?)
    {
      if Cached() != 0 { return false; }
      SendersPush();
      ok := inbox_ == Open(null);
      if ok {
        inbox_ := Blocked;
      }
    }

    method TryUnblock() returns (ok: bool)
      requires Valid()
      modifies this`inbox_, this`stacked, this`arrived
      ensures Valid() && !inbox_.Blocked? && old(arrived) <= arrived
      ensures ok ==> old(inbox_).Blocked? && inbox_ == Open(null)
      ensures !ok && old(inbox_).Blocked? ==> |arrived| > |old(arrived)|
    {
      SendersPush();
      ok := inbox_.Blocked?;
      if ok {
        inbox_ := Open(null);
      }
    }

    /** The next message: of the cached ones the oldest urgent, else the oldest normal; else fetch first. */
    method PopFront() returns (r: Node?)
      requires Valid() && inbox_.Open?
      modifies this`inbox_, this`stacked, this`arrived, this`popped
      modifies urgent_queue_`size_, urgent_queue_`chain, urgent_queue_.chain`next
      modifies normal_queue_`size_, normal_queue_`chain, normal_queue_.chain`next, stacked`next
      ensures Valid() && inbox_.Open? && old(arrived) <= arrived
      ensures popped == old(popped) + (if r == null then [] else [r])
      ensures r == null ==> Cached() == 0 && stacked == []
      ensures old(urgent_queue_.Nodes()) != [] ==> r == old(urgent_queue_.Nodes())[0]
      ensures old(urgent_queue_.Nodes()) == [] && old(normal_queue_.Nodes()) != [] ==> r == old(normal_queue_.Nodes())[0]
      ensures old(Cached()) == 0 && r != null && !r.urgent ==> urgent_queue_.size_ == 0 && stacked == []
    {
      r := PopCached();
      if r == null {
        r := FetchAndPop();
      }
    }

    method FetchAndPop() returns (r: Node?)
      requires Valid() && inbox_.Open? && Cached() == 0
      modifies this`inbox_, this`stacked, this`arrived, this`popped
      modifies urgent_queue_`size_, urgent_queue_`chain, urgent_queue_.chain`next
      modifies normal_queue_`size_, normal_queue_`chain, normal_queue_.chain`next, stacked`next
      ensures Valid() && inbox_.Open? && old(arrived) <= arrived
      ensures popped == old(popped) + (if r == null then [] else [r])
      ensures r == null ==> Cached() == 0 && stacked == []
      ensures r != null && !r.urgent ==> urgent_queue_.size_ == 0 && stacked == []
    {
      r := null;
      var more := FetchMore();
      if more {
        r := PopCached();
      }
    }

    /** One round of the loop: a cached message, urgent first. */
    method PopCached() returns (r: Node?)
      requires Valid() && inbox_.Open?
      modifies this`popped, urgent_queue_`size_, urgent_queue_`chain, normal_queue_`size_, normal_queue_`chain
      modifies urgent_queue_.head`next, urgent_queue_.tail`next, normal_queue_.head`next, normal_queue_.tail`next
      ensures Valid() && (r == null <==> old(Cached()) == 0)
      ensures popped == old(popped) + (if r == null then [] else [r])
      ensures r == null ==> urgent_queue_.chain == old(urgent_queue_.chain) && normal_queue_.chain == old(normal_queue_.chain)
      ensures old(urgent_queue_.Nodes()) != [] ==> r == old(urgent_queue_.Nodes())[0]
      ensures old(urgent_queue_.Nodes()) == [] && old(normal_queue_.Nodes()) != [] ==> r == old(normal_queue_.Nodes())[0]
      ensures r != null && !r.urgent ==> urgent_queue_.size_ == 0
    {
      r := PopQueue(urgent_queue_, normal_queue_, true);
      if r == null {
        r := PopQueue(normal_queue_, urgent_queue_, false);
      }
    }

    method PopQueue(q: LinkedList, ghost other: LinkedList, ghost u: bool) returns (r: Node?)
      requires Valid() && inbox_.Open?
      requires if u then q == urgent_queue_ && other == normal_queue_ else q == normal_queue_ && other == urgent_queue_
      modifies this`popped, q`size_, q`chain, q.head`next, q.tail`next
      ensures Valid()
      ensures if old(q.Nodes()) == [] then r == null && popped == old(popped) && q.chain == old(q.chain)
              else r == old(q.Nodes())[0] && popped == old(popped) + [r] && r.urgent == u
    {
      ghost var waiting, others := q.Nodes(), other.Nodes();
      if q.size_ == 0 { return null; }
      PopKeepsOrder(arrived, popped, waiting, stacked, others, u);
      r := Unlink(q, other, inbox_.newest, stacked);
      Deliver(r);
    }

    ghost method Deliver(r: Node)
      requires Sound()
      requires Ordered(arrived, popped + [r], urgent_queue_.Nodes(), stacked, true)
      requires Ordered(arrived, popped + [r], normal_queue_.Nodes(), stacked, false)
      modifies this`popped
      ensures Valid() && popped == old(popped) + [r]
    {
      popped := popped + [r];
    }

    /** The list's `pop_front`, which leaves the other two chains as they are. */
    method Unlink(q: LinkedList, ghost other: LinkedList, ghost newest: Node?, ghost s: seq<Node>) returns (r: Node?)
      requires q != other && q.Valid() && other.Valid() && Separate(q.chain, other.chain, s) && Stack(newest, s)
      modifies q`size_, q`chain, q.head`next, q.tail`next
      ensures q.Valid() && other.Valid() && Separate(q.chain, other.chain, s) && Stack(newest, s)
      ensures if old(q.Nodes()) == [] then r == null && q.chain == old(q.chain)
              else r == old(q.Nodes())[0] && q.Nodes() == old(q.Nodes())[1..]
    {
      ghost var was := q.chain;
      assert q.head == was[0] && q.tail == was[|was| - 1] && other.tail == other.chain[|other.chain| - 1];
      assert q.head in was && q.tail in was && other.tail in other.chain;
      r := q.PopFront();
      assert forall n <- q.chain :: n in was;
      KeptList(other);
    }

    /** `size` fetches first, so that it counts everything that waits. */
    method Size() returns (n: nat)
      requires Valid() && inbox_.Open?
      modifies this`inbox_, this`stacked, this`arrived
      modifies urgent_queue_`size_, urgent_queue_`chain, urgent_queue_.chain`next
      modifies normal_queue_`size_, normal_queue_`chain, normal_queue_.chain`next, stacked`next
      ensures Valid() && inbox_.Open? && old(arrived) <= arrived
      ensures n == |Pending(true)| + |Pending(false)| && |arrived| == |popped| + n
    {
      var more := FetchMore();
      n := Cached();
      NothingLost(arrived, popped, urgent_queue_.Nodes(), normal_queue_.Nodes(), []);
    }

    /** Bounce what is cached, then close the inbox and bounce what it still holds. */
    method Close() returns (count: nat, bounced: seq<Node>)
      requires Valid() && !inbox_.Closed?
      modifies this`inbox_, this`stacked, this`arrived
      modifies urgent_queue_`size_, urgent_queue_`chain, urgent_queue_.chain`next
      modifies normal_queue_`size_, normal_queue_`chain, normal_queue_.chain`next, stacked`next
      ensures Valid() && inbox_.Closed? && Cached() == 0 && stacked == [] && old(arrived) <= arrived
      ensures count == |bounced| && multiset(arrived) == multiset(popped) + multiset(bounced)
    {
      NothingLost(arrived, popped, urgent_queue_.Nodes(), normal_queue_.Nodes(), stacked);
      count, bounced := BounceAll();
    }

    method BounceAll() returns (count: nat, bounced: seq<Node>)
      requires Sound() && !inbox_.Closed?
      requires multiset(arrived) == multiset(popped)
        + multiset(urgent_queue_.Nodes()) + multiset(normal_queue_.Nodes()) + multiset(stacked)
      modifies this`inbox_, this`stacked, this`arrived
      modifies urgent_queue_`size_, urgent_queue_`chain, urgent_queue_.chain`next
      modifies normal_queue_`size_, normal_queue_`chain, normal_queue_.chain`next, stacked`next
      ensures Valid() && inbox_.Closed? && Cached() == 0 && stacked == [] && old(arrived) <= arrived
      ensures count == |bounced| && multiset(arrived) == multiset(popped) + multiset(bounced)
    {
      ghost var u, n, c, before := urgent_queue_.Nodes(), normal_queue_.Nodes(), stacked, arrived;
      var urgent := BounceQueue(urgent_queue_, normal_queue_);
      var normal := BounceQueue(normal_queue_, urgent_queue_);
      var rest := BounceInbox();
      AllBounced(before, arrived, popped, u, n, c, rest);
      bounced := urgent + normal + rest;
      count := |bounced|;
    }

    method BounceQueue(q: LinkedList, ghost other: LinkedList) returns (freed: seq<Node>)
      requires Sound() && !inbox_.Closed?
      requires (q == urgent_queue_ && other == normal_queue_) || (q == normal_queue_ && other == urgent_queue_)
      modifies q`size_, q`chain, q.chain`next
      ensures Sound() && q.size_ == 0 && freed == old(q.Nodes())
    {
      freed := DrainQueue(q, other, if inbox_.Open? then inbox_.newest else null, stacked);
    }

    /** The inbox's `close`: leave the closed tag, then walk the chain taken. */
    method BounceInbox() returns (freed: seq<Node>)
      requires Sound() && !inbox_.Closed? && Cached() == 0
      modifies this`inbox_, this`stacked, this`arrived, stacked`next
      ensures Valid() && inbox_.Closed? && stacked == [] && old(arrived) <= arrived
      ensures multiset(arrived) + multiset(old(stacked)) == multiset(old(arrived)) + multiset(freed)
    {
      SendersPush();
      var ptr := if inbox_.Open? then inbox_.newest else null;
      ghost var c := stacked;
      inbox_, stacked := Closed, [];
      freed := FreeChain(ptr, c);
    }

    /** The loop of the inbox's `close`: read the link, then free the node. */
    method FreeChain(newest: Node?, ghost c: seq<Node>) returns (freed: seq<Node>)
      requires Stack(newest, c) && Separate(urgent_queue_.chain, normal_queue_.chain, c)
      requires urgent_queue_.Valid() && normal_queue_.Valid()
      modifies c`next
      ensures freed == c && urgent_queue_.Valid() && normal_queue_.Valid()
    {
      assert urgent_queue_.tail == urgent_queue_.chain[|urgent_queue_.chain| - 1];
      assert normal_queue_.tail == normal_queue_.chain[|normal_queue_.chain| - 1];
      assert urgent_queue_.tail in urgent_queue_.chain && normal_queue_.tail in normal_queue_.chain;
      freed := FreeEach(newest, c);
      KeptList(urgent_queue_);
      KeptList(normal_queue_);
    }

    method FreeEach(newest: Node?, ghost c: seq<Node>) returns (freed: seq<Node>)
      requires Stack(newest, c)
      modifies c`next
      ensures freed == c
    {
      var ptr := newest;
      freed := [];
      while ptr != null
        invariant |freed| <= |c| && freed == c[..|freed|]
        invariant Stack(ptr, c[|freed|..])
        decreases |c| - |freed|
      {
        StackTail(ptr, c[|freed|..]);
        ghost var t := c[|freed|..][1..];
        assert t == c[|freed| + 1..];
        var next := ptr.next;
        ptr.next := null;
        freed := freed + [ptr];
        ptr := next;
      }
    }

    method DrainQueue(q: LinkedList, ghost other: LinkedList, ghost newest: Node?, ghost s: seq<Node>) returns (freed: seq<Node>)
      requires q != other && q.Valid() && other.Valid() && Separate(q.chain, other.chain, s) && Stack(newest, s)
      modifies q`size_, q`chain, q.chain`next
      ensures q.Valid() && other.Valid() && Separate(q.chain, other.chain, s) && Stack(newest, s)
      ensures freed == old(q.Nodes()) && |q.chain| == 2
    {
      ghost var was := q.chain;
      assert q.head == was[0] && q.tail == was[|was| - 1] && other.tail == other.chain[|other.chain| - 1];
      assert q.head in was && q.tail in was && other.tail in other.chain;
      freed := q.Drain();
      KeptList(other);
    }

    /** Empty the inbox into the two queues, each message behind those of its priority that came before. */
    method FetchMore() returns (more: bool)
      requires Valid() && inbox_.Open?
      modifies this`inbox_, this`stacked, this`arrived
      modifies urgent_queue_`size_, urgent_queue_`chain, urgent_queue_.chain`next
      modifies normal_queue_`size_, normal_queue_`chain, normal_queue_.chain`next, stacked`next
      ensures Valid() && inbox_ == Open(null) && old(arrived) <= arrived
      ensures stacked == [] && Cached() >= old(Cached()) && (more <==> Cached() > old(Cached()))
    {
      var head;
      ghost var c;
      head, c := TakeHead();
      more := SortIn(head, c);
    }

    /** Put the chain taken from the inbox into the two queues. */
    method SortIn(head: Node?, ghost c: seq<Node>) returns (more: bool)
      requires inbox_ == Open(null) && stacked == []
      requires |urgent_queue_.chain| >= 2 && |normal_queue_.chain| >= 2
      requires Distributing(urgent_queue_.Nodes(), normal_queue_.Nodes(), c, head)
      requires Ordered(arrived, popped, urgent_queue_.Nodes() + Reversed(Of(c, true)), [], true)
      requires Ordered(arrived, popped, normal_queue_.Nodes() + Reversed(Of(c, false)), [], false)
      modifies urgent_queue_`size_, urgent_queue_`chain, urgent_queue_.chain`next
      modifies normal_queue_`size_, normal_queue_`chain, normal_queue_.chain`next, c`next
      ensures Valid() && Cached() >= old(Cached()) && (more <==> Cached() > old(Cached()))
    {
      ghost var u, n := urgent_queue_.Nodes() + Reversed(Of(c, true)), normal_queue_.Nodes() + Reversed(Of(c, false));
      FetchCounts(c);
      if head == null {
        assert u == urgent_queue_.Nodes() && n == normal_queue_.Nodes();
        Fetched(u, n);
        return false;
      }
      Distribute(head, c);
      Fetched(u, n);
      return true;
    }

    lemma Fetched(urgent: seq<Node>, normal: seq<Node>)
      requires Distributing(urgent, normal, [], null) && inbox_ == Open(null) && stacked == []
      requires Ordered(arrived, popped, urgent, [], true) && Ordered(arrived, popped, normal, [], false)
      ensures Valid() && Cached() == |urgent| + |normal|
    {
    }

    /** The inbox's `take_head`, with the order that the messages taken are owed. */
    method TakeHead() returns (newest: Node?, ghost c: seq<Node>)
      requires Valid() && inbox_.Open?
      modifies this`inbox_, this`stacked, this`arrived
      ensures inbox_ == Open(null) && stacked == [] && old(arrived) <= arrived
      ensures |urgent_queue_.chain| >= 2 && |normal_queue_.chain| >= 2
      ensures Distributing(urgent_queue_.Nodes(), normal_queue_.Nodes(), c, newest)
      ensures Ordered(arrived, popped, urgent_queue_.Nodes() + Reversed(Of(c, true)), [], true)
      ensures Ordered(arrived, popped, normal_queue_.Nodes() + Reversed(Of(c, false)), [], false)
      ensures forall i :: 0 <= i < |c| ==> c[i] in old(stacked) || fresh(c[i])
    {
      SendersPush();
      c := stacked;
      newest := inbox_.newest;
      FetchKeepsOrder(arrived, popped, urgent_queue_.Nodes(), c, true);
      FetchKeepsOrder(arrived, popped, normal_queue_.Nodes(), c, false);
      inbox_, stacked := Open(null), [];
    }

    ghost predicate Distributing(urgent: seq<Node>, normal: seq<Node>, rest: seq<Node>, head: Node?)
      reads urgent_queue_, normal_queue_, urgent_queue_.chain`next, normal_queue_.chain`next
      reads urgent_queue_.tail`next, normal_queue_.tail`next, rest`next
    {
      && urgent_queue_ != normal_queue_ && urgent_queue_.Valid() && normal_queue_.Valid()
      && Separate(urgent_queue_.chain, normal_queue_.chain, rest) && Stack(head, rest)
      && urgent_queue_.Nodes() == urgent && normal_queue_.Nodes() == normal
    }

    /** The loop of `fetch_more` over the chain `c` it took. */
    method Distribute(newest: Node, ghost c: seq<Node>)
      requires |urgent_queue_.chain| >= 2 && |normal_queue_.chain| >= 2
      requires c != [] && Distributing(urgent_queue_.Nodes(), normal_queue_.Nodes(), c, newest)
      modifies urgent_queue_`size_, urgent_queue_`chain, urgent_queue_.chain`next
      modifies normal_queue_`size_, normal_queue_`chain, normal_queue_.chain`next, c`next
      ensures Distributing(old(urgent_queue_.Nodes()) + Reversed(Of(c, true)),
                           old(normal_queue_.Nodes()) + Reversed(Of(c, false)), [], null)
    {
      ghost var u0, n0 := urgent_queue_.Nodes(), normal_queue_.Nodes();
      var urgent_point, normal_point := urgent_queue_.tail.next, normal_queue_.tail.next;
      var head: Node? := newest;
      ghost var i := 0;
      assert c[..0] == [] && u0 + [] == u0 && n0 + [] == n0 && c[0..] == c;
      while head != null
        invariant i <= |c| && |urgent_queue_.chain| > |u0| && |normal_queue_.chain| > |n0|
        invariant urgent_point == urgent_queue_.chain[|u0|] && normal_point == normal_queue_.chain[|n0|]
        invariant Distributing(u0 + Reversed(Of(c[..i], true)), n0 + Reversed(Of(c[..i], false)), c[i..], head)
        decreases |c| - i
      {
        MoveReverses(c, i, true);
        MoveReverses(c, i, false);
        head := MoveOne(head, urgent_point, normal_point, u0, Reversed(Of(c[..i], true)),
                        n0, Reversed(Of(c[..i], false)), c[i..]);
        assert c[i..][1..] == c[i + 1..];
        i := i + 1;
      }
      assert c[..i] == c && c[i..] == [];
    }

    /** One message, to the queue of its priority. */
    method MoveOne(head: Node, urgent_point: Node, normal_point: Node, ghost u0: seq<Node>, ghost ru: seq<Node>,
                   ghost n0: seq<Node>, ghost rn: seq<Node>, ghost rest: seq<Node>) returns (next: Node?)
      requires rest != [] && Distributing(u0 + ru, n0 + rn, rest, head)
      requires |u0| < |urgent_queue_.chain| && urgent_point == urgent_queue_.chain[|u0|]
      requires |n0| < |normal_queue_.chain| && normal_point == normal_queue_.chain[|n0|]
      modifies urgent_queue_`size_, urgent_queue_`chain, urgent_point`next, urgent_queue_.tail`next
      modifies normal_queue_`size_, normal_queue_`chain, normal_point`next, normal_queue_.tail`next, head`next
      ensures Distributing(u0 + ((if head.urgent then [head] else []) + ru),
                           n0 + ((if head.urgent then [] else [head]) + rn), rest[1..], next)
      ensures |u0| < |urgent_queue_.chain| && urgent_point == urgent_queue_.chain[|u0|]
      ensures |n0| < |normal_queue_.chain| && normal_point == normal_queue_.chain[|n0|]
    {
      assert [] + ru == ru && [] + rn == rn;
      if head.urgent {
        next := MoveBehind(urgent_queue_, normal_queue_, urgent_point, head, u0, ru, rest);
      } else {
        next := MoveBehind(normal_queue_, urgent_queue_, normal_point, head, n0, rn, rest);
      }
    }

    /** Move the newest of `rest` into `q` behind `pos`; the other queue keeps what it has. */
    method MoveBehind(q: LinkedList, ghost other: LinkedList, pos: Node, ptr: Node, ghost front: seq<Node>, ghost back: seq<Node>, ghost rest: seq<Node>)
      returns (next: Node?)
      requires q != other && q.Valid() && other.Valid() && Separate(q.chain, other.chain, rest)
      requires rest != [] && Stack(ptr, rest)
      requires q.Nodes() == front + back && pos == q.chain[|front|]
      modifies q`size_, q`chain, pos`next, q.tail`next, ptr`next
      ensures q.Valid() && other.Valid() && Separate(q.chain, other.chain, rest[1..])
      ensures Stack(next, rest[1..])
      ensures q.Nodes() == front + ([ptr] + back) && pos == q.chain[|front|]
    {
      StackTail(ptr, rest);
      next := ptr.next;
      ghost var was := q.chain;
      assert q.tail == was[|was| - 1] && other.tail == other.chain[|other.chain| - 1];
      assert pos in was && q.tail in was && other.tail in other.chain;
      MovedSeparate(was, |front|, ptr, other.chain, rest);
      InsertedNodes(front, ptr, back);
      q.InsertAfter(pos, ptr, |front|);
      SplicedAt(was, |front|, ptr);
      KeptList(other);
    }
  }

  lemma MovedSeparate(q: seq<Node>, k: nat, ptr: Node, other: seq<Node>, rest: seq<Node>)
    requires k < |q| && Separate(q, other, rest) && rest != [] && Distinct(rest) && ptr == rest[0]
    ensures ptr !in q && ptr !in other && Separate(Spliced(q, k, ptr), other, rest[1..])
  {
    assert ptr in rest && ptr !in rest[1..];
    assert forall n <- rest[1..] :: n in rest;
    assert forall n <- Spliced(q, k, ptr) :: n == ptr || n in q;
  }

  lemma InsertedNodes(front: seq<Node>, ptr: Node, back: seq<Node>)
    ensures (front + back)[..|front|] + [ptr] + (front + back)[|front|..] == front + ([ptr] + back)
  {
    assert (front + back)[..|front|] == front && (front + back)[|front|..] == back;
  }

  /** A chain moved behind a queue's last node, newest first, arrives oldest first. */
  lemma MoveReverses(c: seq<Node>, i: nat, u: bool)
    requires i < |c|
    ensures Reversed(Of(c[..i + 1], u)) == (if c[i].urgent == u then [c[i]] else []) + Reversed(Of(c[..i], u))
  {
    var d := if c[i].urgent == u then [c[i]] else [];
    assert c[..i + 1] == c[..i] + [c[i]];
    OfAppend(c[..i], [c[i]], u);
    assert Of([c[i]], u) == d + [] == d;
    var t := Of(c[..i], u);
    if d == [] {
      assert t + d == t && d + Reversed(t) == Reversed(t);
    } else {
      ReversedAppend(t, c[i]);
    }
  }

  lemma FetchKeepsOrder(arrived: seq<Node>, popped: seq<Node>, queue: seq<Node>, c: seq<Node>, u: bool)
    requires Ordered(arrived, popped, queue, c, u)
    ensures Ordered(arrived, popped, queue + Reversed(Of(c, u)), [], u)
  {
    var all := queue + Reversed(Of(c, u));
    assert all + [] == all;
  }

  /** Every message that arrived has been popped or waits, once. */
  lemma NothingLost(arrived: seq<Node>, popped: seq<Node>, urgent: seq<Node>, normal: seq<Node>, stacked: seq<Node>)
    requires Ordered(arrived, popped, urgent, stacked, true) && Ordered(arrived, popped, normal, stacked, false)
    ensures multiset(arrived) == multiset(popped) + multiset(urgent) + multiset(normal) + multiset(stacked)
    ensures |arrived| == |popped| + |urgent| + |normal| + |stacked|
  {
    OfSplits(arrived);
    OfSplits(popped);
    OfSplits(stacked);
    ReversedSame(Of(stacked, true));
    ReversedSame(Of(stacked, false));
    assert |arrived| == |multiset(arrived)|;
    assert |multiset(popped) + multiset(urgent) + multiset(normal) + multiset(stacked)|
        == |popped| + |urgent| + |normal| + |stacked|;
  }

  lemma AllBounced(before: seq<Node>, arrived: seq<Node>, popped: seq<Node>, u: seq<Node>, n: seq<Node>, c: seq<Node>, rest: seq<Node>)
    requires multiset(before) == multiset(popped) + multiset(u) + multiset(n) + multiset(c)
    requires multiset(arrived) + multiset(c) == multiset(before) + multiset(rest)
    ensures multiset(arrived) == multiset(popped) + multiset(u + n + rest)
  {
    forall x
      ensures multiset(arrived)[x] == (multiset(popped) + multiset(u + n + rest))[x]
    {
      assert (multiset(arrived) + multiset(c))[x] == (multiset(before) + multiset(rest))[x];
    }
  }

  lemma PushSeparate(a: seq<Node>, b: seq<Node>, c: seq<Node>, m: Node)
    requires Separate(a, b, c) && m !in a && m !in b
    ensures Separate(a, b, [m] + c)
  {
  }

  lemma {:induction false} OfOnly(s: seq<Node>, u: bool)
    ensures forall n <- Of(s, u) :: n.urgent == u
  {
    if s != [] {
      OfOnly(s[1..], u);
    }
  }

  lemma OfSnoc(s: seq<Node>, x: Node)
    ensures Of(s + [x], x.urgent) == Of(s, x.urgent) + [x] && Of(s + [x], !x.urgent) == Of(s, !x.urgent)
  {
    OfAppend(s, [x], x.urgent);
    OfAppend(s, [x], !x.urgent);
    assert Of([x], x.urgent) == [x] + [] && Of([x], !x.urgent) == [] + [];
    assert Of(s, !x.urgent) + [] == Of(s, !x.urgent);
  }

  /** Popping the first of one queue leaves both priorities in order. */
  lemma PopKeepsOrder(arrived: seq<Node>, popped: seq<Node>, queue: seq<Node>, stacked: seq<Node>, other: seq<Node>, u: bool)
    requires Ordered(arrived, popped, queue, stacked, u) && queue != []
    requires Ordered(arrived, popped, other, stacked, !u)
    ensures Ordered(arrived, popped + [queue[0]], queue[1..], stacked, u) && queue[0].urgent == u
    ensures Ordered(arrived, popped + [queue[0]], other, stacked, !u)
  {
    var x := queue[0];
    assert x == Of(arrived, u)[|Of(popped, u)|];
    OfOnly(arrived, u);
    assert x.urgent == u;
    OfSnoc(popped, x);
    PopArithmetic(Of(popped, u), queue, Reversed(Of(stacked, u)));
  }

  lemma PopArithmetic(p: seq<Node>, queue: seq<Node>, r: seq<Node>)
    requires queue != []
    ensures p + (queue + r) == (p + [queue[0]]) + (queue[1..] + r)
  {
  }

  lemma FetchCounts(c: seq<Node>)
    ensures |Reversed(Of(c, true))| + |Reversed(Of(c, false))| == |c|
  {
    OfSplits(c);
    ReversedSame(Of(c, true));
    ReversedSame(Of(c, false));
    assert |multiset(c)| == |multiset(Of(c, true))| + |multiset(Of(c, false))|;
    assert |multiset(Reversed(Of(c, true)))| == |multiset(Of(c, true))|;
  }

  twostate lemma KeptList(l: LinkedList)
    requires old(l.Valid()) && l.chain == old(l.chain) && l.size_ == old(l.size_)
    requires l.tail.next == old(l.tail.next) && forall n <- old(l.chain) :: n.next == old(n.next)
    ensures l.Valid()
  {
    assert Chained(l.chain) by {
      forall i, j | 0 <= i < j < |l.chain| && j == i + 1
        ensures l.chain[i].next == l.chain[j]
      {
        assert l.chain[i] in l.chain;
      }
    }
  }
}
