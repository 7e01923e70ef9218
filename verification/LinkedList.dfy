/**
 The intrusive singly linked list with a head and a tail sentinel; the tail's `next` names the last
 node, or the head when the list is empty.
 */
module LinkedLists {
  import opened Wrappers

  /** A node a queue links: a message or a job. */
  class Node {
    var next: Node?
    const id: nat
    const urgent: bool

    constructor (id: nat, urgent: bool)
      ensures this.id == id && this.urgent == urgent && next == null
    {
      this.id, this.urgent, next := id, urgent, null;
    }
  }

  /** Each node of the chain links to the one after it. */
  ghost predicate Chained(s: seq<Node>)
    reads s`next
  {
    forall i, j :: 0 <= i < j < |s| && j == i + 1 ==> s[i].next == s[j]
  }

  /** `s` with `ptr` put in behind its `k`-th node. */
  ghost function Spliced(s: seq<Node>, k: nat, ptr: Node): seq<Node>
    requires k < |s|
  {
    s[..k + 1] + [ptr] + s[k + 1..]
  }

  lemma SplicedAt(s: seq<Node>, k: nat, ptr: Node)
    requires k < |s| && Distinct(s) && ptr !in s
    ensures |Spliced(s, k, ptr)| == |s| + 1 && Distinct(Spliced(s, k, ptr))
    ensures forall j :: 0 <= j <= k ==> Spliced(s, k, ptr)[j] == s[j]
    ensures Spliced(s, k, ptr)[k + 1] == ptr
    ensures forall j :: k + 1 < j <= |s| ==> Spliced(s, k, ptr)[j] == s[j - 1]
  {
    var t := Spliced(s, k, ptr);
    assert forall j :: k + 1 < j <= |s| ==> t[j] == s[j - 1];
    forall i, j | 0 <= i < j < |t|
      ensures t[i] != t[j]
    {
      if i != k + 1 && j != k + 1 {
        var i', j' := if i <= k then i else i - 1, if j <= k then j else j - 1;
        assert t[i] == s[i'] && t[j] == s[j'];
      }
    }
  }

  /** Seen between the sentinels. */
  lemma SplicedNodes(s: seq<Node>, k: nat, ptr: Node)
    requires k < |s| - 1
    ensures Spliced(s, k, ptr)[1..|s|] == s[1..|s| - 1][..k] + [ptr] + s[1..|s| - 1][k..]
  {
    var t, inner := Spliced(s, k, ptr), s[1..|s| - 1];
    assert t == [s[0]] + (inner[..k] + [ptr] + inner[k..]) + [s[|s| - 1]];
  }

  lemma Relinked(s: seq<Node>, k: nat, ptr: Node)
    requires k < |s| - 1 && Distinct(s) && ptr !in s && s[k].next == ptr && ptr.next == s[k + 1]
    requires forall i, j :: 0 <= i < j < |s| && j == i + 1 && i != k ==> s[i].next == s[j]
    ensures Chained(Spliced(s, k, ptr))
  {
    SplicedAt(s, k, ptr);
  }

  class LinkedList {
    const head: Node
    const tail: Node
    var size_: nat
    // The head sentinel, the nodes in order, and the tail sentinel.
    ghost var chain: seq<Node>

    ghost predicate Valid()
      reads this, chain`next, tail`next
    {
      && |chain| >= 2 && chain[0] == head && chain[|chain| - 1] == tail
      && Distinct(chain)
      && Chained(chain)
      && tail.next == chain[|chain| - 2]
      && size_ == |chain| - 2
    }

    ghost function Nodes(): seq<Node>
      requires |chain| >= 2
      reads this
    {
      chain[1..|chain| - 1]
    }

    constructor ()
      ensures Valid() && Nodes() == [] && fresh(head) && fresh(tail)
    {
      head := new Node(0, false);
      tail := new Node(0, false);
      size_ := 0;
      new;
      head.next := tail;
      tail.next := head;
      chain := [head, tail];
    }

    method PushBack(ptr: Node)
      requires Valid() && ptr !in chain
      modifies this`size_, this`chain, tail`next, {chain[|chain| - 2], ptr}`next
      ensures Valid() && Nodes() == old(Nodes()) + [ptr]
      ensures chain == Spliced(old(chain), |old(chain)| - 2, ptr)
    {
      SplicedAt(chain, |chain| - 2, ptr);
      tail.next.next := ptr;
      tail.next := ptr;
      ptr.next := tail;
      size_ := size_ + 1;
      chain := Spliced(chain, |chain| - 2, ptr);
    }

    method PushFront(ptr: Node)
      requires Valid() && ptr !in chain
      modifies this`size_, this`chain, head`next, tail`next, ptr`next
      ensures Valid() && Nodes() == [ptr] + old(Nodes())
    {
      if size_ == 0 {
        PushBack(ptr);
        return;
      }
      SplicedAt(chain, 0, ptr);
      ptr.next := head.next;
      head.next := ptr;
      size_ := size_ + 1;
      chain := Spliced(chain, 0, ptr);
    }

    method PopFront() returns (ptr: Node?)
      requires Valid()
      modifies this`size_, this`chain, head`next, tail`next
      ensures Valid()
      ensures if old(Nodes()) == [] then ptr == null && Nodes() == []
              else ptr == old(Nodes())[0] && Nodes() == old(Nodes())[1..] && ptr !in chain
      ensures chain == if old(Nodes()) == [] then old(chain) else [head] + old(chain)[2..]
    {
      if size_ == 0 { return null; }
      ptr := head.next;
      assert ptr == chain[1];
      head.next := ptr.next;
      size_ := size_ - 1;
      if size_ == 0 {
        assert head.next == tail;
        tail.next := head;
      }
      chain := [head] + chain[2..];
    }

    /** Insert behind `pos`, the head sentinel or a node: the `k`-th of the chain. */
    method InsertAfter(pos: Node, ptr: Node, ghost k: nat)
      requires Valid() && ptr !in chain && k < |chain| - 1 && pos == chain[k]
      modifies this`size_, this`chain, pos`next, tail`next, ptr`next
      ensures Valid() && Nodes() == old(Nodes())[..k] + [ptr] + old(Nodes())[k..]
      ensures chain == Spliced(old(chain), k, ptr)
    {
      SplicedAt(chain, k, ptr);
      SplicedNodes(chain, k, ptr);
      Link(pos, ptr, k);
      size_ := size_ + 1;
      Relinked(chain, k, ptr);
      chain := Spliced(chain, k, ptr);
    }

    /** The three writes to links. */
    method Link(pos: Node, ptr: Node, ghost k: nat)
      requires Valid() && ptr !in chain && k < |chain| - 1 && pos == chain[k]
      modifies pos`next, tail`next, ptr`next
      ensures pos.next == ptr && ptr.next == chain[k + 1]
      ensures tail.next == if k == |chain| - 2 then ptr else old(tail.next)
      ensures forall i, j :: 0 <= i < j < |chain| && j == i + 1 && i != k ==> chain[i].next == chain[j]
    {
      var next := pos.next;
      assert next == chain[k + 1];
      ptr.next := next;
      pos.next := ptr;
      if next == tail {
        tail.next := ptr;
      }
    }

    /** Hand every node to the callback, which may free it, in order; then empty the list. */
    method Drain() returns (handed: seq<Node>)
      requires Valid()
      modifies this`size_, this`chain, head`next, tail`next, chain`next
      ensures Valid() && chain == [head, tail] && handed == old(Nodes())
    {
      handed := [];
      var i := head.next;
      while i != tail
        invariant chain == old(chain) && |handed| <= |chain| - 2 && i == chain[|handed| + 1]
        invariant handed == chain[1..|handed| + 1]
        invariant forall j, k :: |handed| < j < k < |chain| && k == j + 1 ==> chain[j].next == chain[k]
        decreases |chain| - |handed|
      {
        var ptr := i;
        i := i.next;
        ptr.next := null;
        handed := handed + [ptr];
      }
      Init();
    }

    method Init()
      requires head != tail
      modifies this`size_, this`chain, head`next, tail`next
      ensures Valid() && chain == [head, tail]
    {
      head.next := tail;
      tail.next := head;
      size_ := 0;
      chain := [head, tail];
    }

    /** The move constructor's part, on a list just initialised. */
    method TakeOver(other: LinkedList)
      requires Valid() && chain == [head, tail] && other.Valid() && other != this
      requires forall j :: 0 <= j < |other.chain| ==> other.chain[j] != head && other.chain[j] != tail
      modifies this`size_, this`chain, head`next, tail`next
      modifies other`size_, other`chain, other.head`next, other.tail`next, {other.chain[|other.chain| - 2]}`next
      ensures Valid() && other.Valid() && Nodes() == old(other.Nodes()) && other.chain == [other.head, other.tail]
    {
      if other.size_ != 0 {
        ghost var n := |other.chain|;
        assert chain[0] != chain[1] && other.tail == other.chain[n - 1] && other.head == other.chain[0];
        head.next := other.head.next;
        tail.next := other.tail.next;
        tail.next.next := tail;
        size_ := other.size_;
        chain := [head] + other.chain[1..n - 1] + [tail];
        assert chain[n - 1] == tail && chain[n - 2] == other.chain[n - 2];
        assert forall j :: 1 <= j < n - 1 ==> chain[j] == other.chain[j];
        other.Init();
      }
    }

    /**
     Move assignment: what this list held is freed in order, then it takes over the other list. There
     is no check for self-assignment, which frees and forgets every node.
     */
    method MoveAssign(other: LinkedList) returns (freed: seq<Node>)
      requires Valid() && other.Valid()
      requires other != this ==> forall j :: 0 <= j < |other.chain| ==> other.chain[j] !in chain
      modifies this`size_, this`chain, chain`next
      modifies other`size_, other`chain, other.chain`next
      ensures Valid() && other.Valid() && freed == old(Nodes()) && other.chain == [other.head, other.tail]
      ensures other != this ==> Nodes() == old(other.Nodes())
    {
      ghost var was := other.chain;
      assert head in chain && tail in chain && other.tail == was[|was| - 1];
      freed := Drain();
      assert other != this ==> other.chain == was && forall j :: 0 <= j < |was| ==> was[j].next == old(was[j].next);
      if other.size_ != 0 {
        TakeOver(other);
      }
    }
  }
}
