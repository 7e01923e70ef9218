/** The argument pack: one block that holds the arguments and, behind them, the table of their offsets. */
module Rtts {
  import opened Bits
  import opened RttLayout
  import opened Wrappers

  // One entry of the table: an offset and a destroyer.
  const ENTRY: Type := Type(16, 3)

  datatype Entry = Entry(offset: nat)

  /** The memory resource, with a ledger of its blocks and of the objects that live in them. */
  class Resource {
    ghost var blocks: map<nat, nat>      // address to size
    ghost var living: map<nat, nat>      // address of an object to the block that holds it
    ghost var destroyed: seq<nat>        // the objects destroyed so far, in order
    var next_: nat

    ghost predicate Valid()
      reads this
    {
      && (forall p <- blocks :: 0 < p && p + blocks[p] <= next_)
      && (forall p, q | p in blocks && q in blocks && p != q :: Disjoint(p, q))
      && (forall a <- living :: living[a] in blocks && living[a] <= a < living[a] + blocks[living[a]])
    }

    ghost predicate Disjoint(p: nat, q: nat)
      requires p in blocks && q in blocks
      reads this
    {
      p + blocks[p] <= q || q + blocks[q] <= p
    }

    lemma OneBlock(a: nat, p: nat)
      requires Valid() && p in blocks && p <= a < p + blocks[p]
      ensures a in living ==> living[a] == p
    {
      assert a in living && living[a] != p ==> Disjoint(living[a], p);
    }

    /** A block apart from every other, aligned as for the largest basic type. */
    method Allocate(bytes: nat) returns (p: nat)
      requires Valid()
      modifies this
      ensures Valid() && p > 0 && p % 16 == 0 && p !in old(blocks) && blocks == old(blocks)[p := bytes]
      ensures living == old(living) && destroyed == old(destroyed)
      ensures forall a <- living :: living[a] != p && (a < p || p + bytes <= a)
    {
      p := RoundUp(next_ + 1, 16);
      RoundUpIsMultiple(next_ + 1, 16);
      next_ := p + bytes;
      blocks := blocks[p := bytes];
      assert forall q <- blocks :: q != p ==> q in old(blocks) && blocks[q] == old(blocks)[q] && q + blocks[q] <= p;
    }

    method Deallocate(p: nat, bytes: nat)
      requires Valid() && p in blocks && blocks[p] == bytes
      requires forall a <- living :: living[a] != p
      modifies this
      ensures Valid() && blocks == old(blocks) - {p} && living == old(living) && destroyed == old(destroyed)
    {
      blocks := blocks - {p};
    }

    ghost method Construct(a: nat, block: nat)
      requires Valid() && a !in living && block in blocks && block <= a < block + blocks[block]
      modifies this
      ensures Valid() && living == old(living)[a := block] && blocks == old(blocks) && destroyed == old(destroyed)
    {
      living := living[a := block];
    }

    ghost method Destroy(a: nat)
      requires Valid() && a in living
      modifies this
      ensures Valid() && living == old(living) - {a} && blocks == old(blocks) && destroyed == old(destroyed) + [a]
    {
      living := living - {a};
      destroyed := destroyed + [a];
    }

    constructor ()
      ensures Valid() && blocks == map[] && living == map[] && destroyed == []
    {
      blocks, living, destroyed, next_ := map[], map[], [], 0;
    }
  }

  /** From the last of `s` down to the one at `i`. */
  function Unwound(s: seq<nat>, i: nat): (t: seq<nat>)
    requires i <= |s|
    ensures |t| == |s| - i && forall k :: 0 <= k < |t| ==> t[k] == s[|s| - 1 - k]
    decreases |s| - i
  {
    if i == |s| then [] else Unwound(s, i + 1) + [s[i]]
  }

  ghost function Without(m: map<nat, nat>, s: seq<nat>): map<nat, nat>
  {
    map a | a in m && a !in s :: m[a]
  }

  lemma WithoutNext(m: map<nat, nat>, s: seq<nat>, i: nat)
    requires i < |s| && s[i] in m && forall j, k :: 0 <= j < k < |s| ==> s[j] < s[k]
    ensures s[i] in Without(m, s[i + 1..]) && Without(m, s[i + 1..]) - {s[i]} == Without(m, s[i..])
  {
    assert s[i..] == [s[i]] + s[i + 1..];
  }

  /** The bytes of a block with room for `capacity` bytes of objects and a table of `n` entries. */
  function Footprint(capacity: nat, n: nat): nat
  {
    AlignFits(ENTRY);
    AlignUp(capacity, ENTRY.Align()) + n * ENTRY.size
  }

  lemma FootprintHolds(capacity: nat, n: nat)
    requires capacity + ENTRY.Align() - 1 < U64
    ensures capacity <= Footprint(capacity, n)
  {
    AlignUpRounds(capacity, ENTRY);
  }

  /** Where the table of entries begins in a block at `base`. */
  function TableAt(base: nat, capacity: nat): nat
  {
    AlignFits(ENTRY);
    base + AlignUp(capacity, ENTRY.Align())
  }

  /**
   The table lies behind every object, inside the block to its last byte, and is aligned for its
   entries on a block that suits them.
   */
  lemma TableApart(base: nat, capacity: nat, types: seq<Type>, at: seq<nat>)
    requires Place(base, 0, capacity, types) == Some(at) && capacity + ENTRY.Align() - 1 < U64
    ensures |at| == |types|
    ensures forall i :: 0 <= i < |at| ==> base + at[i] + types[i].size <= TableAt(base, capacity)
    ensures TableAt(base, capacity) + |types| * ENTRY.size == base + Footprint(capacity, |types|)
    ensures base % ENTRY.Align() == 0 ==> TableAt(base, capacity) % ENTRY.Align() == 0
  {
    SlotsInOrder(base, 0, capacity, types, at);
    AlignUpRounds(capacity, ENTRY);
    TableAligned(base, capacity, ENTRY.Align());
  }

  lemma TableAligned(base: nat, capacity: nat, a: nat)
    requires a > 0
    ensures base % a == 0 ==> (base + RoundUp(capacity, a)) % a == 0
  {
    var up := RoundUp(capacity, a);
    RoundUpIsMultiple(capacity, a);
    if base % a == 0 {
      ModUnique(base + up, a, base / a + up / a, 0);
    }
  }

  /** The placement of all is what is placed so far, then the placement of the rest. */
  ghost predicate Continues(whole: Option<seq<nat>>, done: seq<nat>, rest: Option<seq<nat>>)
  {
    if rest.None? then whole.None? else whole == Some(done + rest.value)
  }

  lemma ContinuesAtStart(whole: Option<seq<nat>>)
    ensures Continues(whole, [], whole)
  {
    assert whole.Some? ==> [] + whole.value == whole.value;
  }

  lemma PlaceNext(whole: Option<seq<nat>>, done: seq<nat>, base: nat, volume: nat, capacity: nat, types: seq<Type>, i: nat)
    requires i < |types| && volume <= capacity
    requires Continues(whole, done, Place(base, volume, capacity, types[i..]))
    ensures var at := ForceAlign(base, volume, capacity, types[i]);
      if at.None? then whole.None?
      else Continues(whole, done + [at.value], Place(base, at.value + types[i].size, capacity, types[i + 1..]))
  {
    var at := ForceAlign(base, volume, capacity, types[i]);
    assert types[i..][0] == types[i] && types[i..][1..] == types[i + 1..];
    if at.Some? {
      var rest := Place(base, at.value + types[i].size, capacity, types[i + 1..]);
      assert rest.Some? ==> done + ([at.value] + rest.value) == (done + [at.value]) + rest.value;
    }
  }

  class Rtt {
    var memory_resource_: Resource?
    var capacity_: nat
    var volume_: nat
    var allocation_: nat               // 0 is the null pointer
    var data_: nat
    var objects_: array?<Entry>
    var objects_idx_: nat
    ghost var held: seq<nat>           // the addresses of the objects, in the order of construction

    ghost predicate Empty()
      reads this
    {
      && capacity_ == 0 && volume_ == 0 && allocation_ == 0 && data_ == 0
      && objects_ == null && objects_idx_ == 0 && held == []
    }

    /** The table lists the objects held, each below the volume used. */
    ghost predicate Listed()
      reads this, objects_
    {
      && objects_ != null && |held| == objects_idx_ <= objects_.Length && volume_ <= capacity_
      && (forall i :: 0 <= i < |held| ==> held[i] == data_ + objects_[i].offset < data_ + volume_)
      && (forall i, j :: 0 <= i < j < |held| ==> held[i] < held[j])
    }

    /** The pack owns one block, and the objects living in it are the ones listed. */
    ghost predicate Owning()
      reads this, objects_, memory_resource_
    {
      && Listed() && memory_resource_ != null && memory_resource_.Valid()
      && allocation_ != 0 && data_ == allocation_ && allocation_ in memory_resource_.blocks
      && memory_resource_.blocks[allocation_] == Footprint(capacity_, objects_.Length) >= capacity_
      && (forall i :: 0 <= i < |held| ==> held[i] in memory_resource_.living)
      && (forall a <- memory_resource_.living :: a in held <==> memory_resource_.living[a] == allocation_)
    }

    ghost predicate Valid()
      reads this, objects_, memory_resource_
    {
      if allocation_ == 0 then Empty() && (memory_resource_ != null ==> memory_resource_.Valid())
      else Owning() && objects_idx_ == objects_.Length
    }

    constructor (resource: Resource)
      requires resource.Valid()
      ensures Valid() && Empty() && memory_resource_ == resource
    {
      memory_resource_ := resource;
      capacity_, volume_, allocation_, data_, objects_, objects_idx_ := 0, 0, 0, 0, null, 0;
      held := [];
    }

    /** The constructor from arguments, on a pack just initialised. */
    method Build(args: seq<Arg>) returns (ok: bool)
      requires Valid() && Empty() && memory_resource_ != null
      requires GetSize(0, Declared(args)) + ENTRY.Align() - 1 < U64
      modifies this, memory_resource_
      ensures memory_resource_ == old(memory_resource_)
      ensures ok <==> !Aborts(data_, args)
      ensures ok ==> Valid() && capacity_ == if args == [] then 0 else GetSize(0, Declared(args))
      ensures ok ==> HeldAt(Place(data_, 0, GetSize(0, Declared(args)), Decayed(args)).value)
      ensures memory_resource_.destroyed == old(memory_resource_.destroyed)
    {
      if args == [] { return true; }
      Reserve(GetSize(0, Declared(args)), |args|);
      ok := Fill(Decayed(args));
    }

    method Fill(types: seq<Type>) returns (ok: bool)
      requires Owning() && volume_ == 0 && held == [] && objects_.Length == |types|
      modifies this`volume_, this`objects_idx_, this`held, objects_, memory_resource_
      ensures Owning()
      ensures var whole := Place(data_, 0, capacity_, types);
        if whole.None? then !ok else ok && objects_idx_ == |types| && HeldAt(whole.value)
      ensures memory_resource_.destroyed == old(memory_resource_.destroyed)
    {
      ghost var offsets: seq<nat> := [];
      ghost var whole := Place(data_, 0, capacity_, types);
      assert types[0..] == types;
      ContinuesAtStart(whole);
      for i := 0 to |types|
        invariant Owning() && objects_idx_ == i && HeldAt(offsets)
        invariant Continues(whole, offsets, Place(data_, volume_, capacity_, types[i..]))
        invariant memory_resource_.destroyed == old(memory_resource_.destroyed)
      {
        ghost var at := ForceAlign(data_, volume_, capacity_, types[i]);
        ok := FillNext(types, i, whole, offsets);
        if !ok { return false; }
        offsets := offsets + [at.value];
      }
      assert Place(data_, volume_, capacity_, types[|types|..]) == Some([]);
      assert offsets + [] == offsets;
      return true;
    }

    method FillNext(types: seq<Type>, i: nat, ghost whole: Option<seq<nat>>, ghost offsets: seq<nat>) returns (ok: bool)
      requires Owning() && objects_idx_ == i < |types| == objects_.Length && HeldAt(offsets)
      requires Continues(whole, offsets, Place(data_, volume_, capacity_, types[i..]))
      modifies this`volume_, this`objects_idx_, this`held, objects_, memory_resource_
      ensures Owning() && memory_resource_.destroyed == old(memory_resource_.destroyed)
      ensures var at := ForceAlign(data_, old(volume_), capacity_, types[i]);
        if at.None? then !ok && whole.None?
        else
          && ok && objects_idx_ == i + 1 && HeldAt(offsets + [at.value])
          && Continues(whole, offsets + [at.value], Place(data_, volume_, capacity_, types[i + 1..]))
    {
      PlaceNext(whole, offsets, data_, volume_, capacity_, types, i);
      ok := FillOne(types[i], offsets);
    }

    method FillOne(t: Type, ghost offsets: seq<nat>) returns (ok: bool)
      requires Owning() && objects_idx_ < objects_.Length && HeldAt(offsets)
      modifies this`volume_, this`objects_idx_, this`held, objects_, memory_resource_
      ensures Owning() && memory_resource_.destroyed == old(memory_resource_.destroyed)
      ensures var at := ForceAlign(data_, old(volume_), capacity_, t);
        && (ok <==> at.Some?)
        && (ok ==> objects_idx_ == old(objects_idx_) + 1 && HeldAt(offsets + [at.value]) && volume_ == at.value + t.size)
    {
      ok := PushBackNoRealloc(t);
    }

    ghost predicate HeldAt(offsets: seq<nat>)
      reads this
    {
      |held| == |offsets| && forall i :: 0 <= i < |held| ==> held[i] == data_ + offsets[i]
    }

    method Reserve(size: nat, n: nat)
      requires Valid() && Empty() && memory_resource_ != null && n > 0 && size + ENTRY.Align() - 1 < U64
      modifies this, memory_resource_
      ensures Owning() && memory_resource_ == old(memory_resource_) && capacity_ == size && volume_ == 0
      ensures held == [] && objects_.Length == n && fresh(objects_)
      ensures memory_resource_.destroyed == old(memory_resource_.destroyed)
    {
      AlignFits(ENTRY);
      FootprintHolds(size, n);
      var aligned_capacity := AlignUp(size, ENTRY.Align());
      capacity_ := size;
      allocation_ := memory_resource_.Allocate(aligned_capacity + n * ENTRY.size);
      data_ := allocation_;
      objects_ := new Entry[n](_ => Entry(0));
    }

    /** `push_back_no_realloc`; the result tells whether there was space, without which the source aborts. */
    method PushBackNoRealloc(t: Type) returns (ok: bool)
      requires Owning() && objects_idx_ < objects_.Length
      modifies this`volume_, this`objects_idx_, this`held, objects_, memory_resource_
      ensures Owning() && objects_idx_ == old(objects_idx_) + (if ok then 1 else 0)
      ensures ok <==> ForceAlign(data_, old(volume_), capacity_, t).Some?
      ensures ok ==> held == old(held) + [data_ + ForceAlign(data_, old(volume_), capacity_, t).value]
      ensures ok ==> volume_ == ForceAlign(data_, old(volume_), capacity_, t).value + t.size
      ensures ok ==> memory_resource_.living == old(memory_resource_.living)[held[|held| - 1] := allocation_]
      ensures memory_resource_.blocks == old(memory_resource_.blocks)
      ensures memory_resource_.destroyed == old(memory_resource_.destroyed)
    {
      var at := ForceAlign(data_, volume_, capacity_, t);
      if at.None? { return false; }
      ForceAlignFits(data_, volume_, capacity_, t);
      Store(at.value, t.size);
      return true;
    }

    method Store(offset: nat, size: nat)
      requires Owning() && objects_idx_ < objects_.Length
      requires volume_ <= offset && 0 < size && offset + size <= capacity_
      modifies this`volume_, this`objects_idx_, this`held, objects_, memory_resource_
      ensures Owning() && volume_ == offset + size && held == old(held) + [data_ + offset]
      ensures objects_idx_ == old(objects_idx_) + 1
      ensures memory_resource_.living == old(memory_resource_.living)[data_ + offset := allocation_]
      ensures memory_resource_.blocks == old(memory_resource_.blocks)
      ensures memory_resource_.destroyed == old(memory_resource_.destroyed)
    {
      ghost var a := data_ + offset;
      memory_resource_.OneBlock(a, allocation_);
      memory_resource_.Construct(a, allocation_);
      Record(offset, size);
    }

    method Record(offset: nat, size: nat)
      requires Listed() && objects_idx_ < objects_.Length && volume_ <= offset && 0 < size && offset + size <= capacity_
      modifies this`volume_, this`objects_idx_, this`held, objects_
      ensures Listed() && objects_idx_ == old(objects_idx_) + 1 && volume_ == offset + size
      ensures held == old(held) + [data_ + offset]
    {
      objects_[objects_idx_] := Entry(offset);
      objects_idx_ := objects_idx_ + 1;
      volume_ := offset + size;
      held := held + [data_ + offset];
    }

    /** Destroy the objects, the last first, and give the block back whole. */
    method Clear()
      requires Valid()
      modifies this, memory_resource_
      ensures Empty() && memory_resource_ == old(memory_resource_)
      ensures memory_resource_ != null ==>
        && memory_resource_.Valid()
        && memory_resource_.destroyed == old(memory_resource_.destroyed) + Unwound(old(held), 0)
        && memory_resource_.blocks == old(memory_resource_.blocks) - {old(allocation_)}
        && memory_resource_.living == Without(old(memory_resource_.living), old(held))
    {
      if allocation_ != 0 {
        DestroyAll();
        FreeBlock();
      }
      volume_, objects_idx_, allocation_, data_, objects_, capacity_ := 0, 0, 0, 0, null, 0;
      held := [];
    }

    /** Give the block back, with the size computed from the capacity and the number of entries. */
    method FreeBlock()
      requires memory_resource_ != null && memory_resource_.Valid() && allocation_ in memory_resource_.blocks
      requires memory_resource_.blocks[allocation_] == Footprint(capacity_, objects_idx_)
      requires forall a <- memory_resource_.living :: memory_resource_.living[a] != allocation_
      modifies memory_resource_
      ensures memory_resource_.Valid() && memory_resource_.blocks == old(memory_resource_.blocks) - {allocation_}
      ensures memory_resource_.living == old(memory_resource_.living)
      ensures memory_resource_.destroyed == old(memory_resource_.destroyed)
    {
      AlignFits(ENTRY);
      var aligned_capacity := AlignUp(capacity_, ENTRY.Align());
      memory_resource_.Deallocate(allocation_, aligned_capacity + objects_idx_ * ENTRY.size);
    }

    /** The move constructor, on a pack that holds nothing. */
    method MoveFrom(other: Rtt)
      requires other != this && Empty() && other.Valid()
      modifies this, other
      ensures Valid() && Took(old(other.allocation_), old(other.held), old(other.memory_resource_))
      ensures other.Valid() && other.Empty() && other.memory_resource_ == null
    {
      Take(other);
      other.Forget();
    }

    method Take(other: Rtt)
      requires other != this && other.Valid()
      modifies this
      ensures Valid() && Took(other.allocation_, other.held, other.memory_resource_)
    {
      memory_resource_, capacity_, volume_ := other.memory_resource_, other.capacity_, other.volume_;
      allocation_, data_ := other.allocation_, other.data_;
      objects_, objects_idx_ := other.objects_, other.objects_idx_;
      held := other.held;
    }

    method Forget()
      modifies this
      ensures Empty() && memory_resource_ == null
    {
      memory_resource_, capacity_, volume_ := null, 0, 0;
      allocation_, data_, objects_, objects_idx_ := 0, 0, null, 0;
      held := [];
    }

    ghost predicate Took(allocation: nat, objects: seq<nat>, resource: Resource?)
      reads this
    {
      allocation_ == allocation && held == objects && memory_resource_ == resource
    }

    /** The move constructor with a resource, which must be the other's. */
    method MoveFromSame(resource: Resource, other: Rtt)
      requires other != this && Empty() && memory_resource_ == resource && other.Valid() && other.memory_resource_ == resource
      modifies this, other
      ensures Valid() && Took(old(other.allocation_), old(other.held), resource)
      ensures other.Valid() && other.Empty() && other.memory_resource_ == null
    {
      MoveFrom(other);
    }

    /**
     Move assignment: destroy what was held and take over the other pack, which keeps nothing. No object
     is destroyed that was not held here, and none twice: a resource destroys only what lives in it.
     */
    method MoveAssign(other: Rtt)
      requires Valid() && other.Valid()
      requires memory_resource_ == other.memory_resource_ || memory_resource_ == null
      requires other != this ==> allocation_ == 0 || allocation_ != other.allocation_
      modifies this, other, memory_resource_
      ensures Valid() && other.Valid()
      ensures other == this ==> Took(old(allocation_), old(held), old(memory_resource_))
      ensures other != this ==>
        && Took(old(other.allocation_), old(other.held), old(other.memory_resource_))
        && other.Empty() && other.memory_resource_ == null
      ensures other != this && old(memory_resource_) != null ==>
        && old(memory_resource_).destroyed == old(memory_resource_.destroyed) + Unwound(old(held), 0)
        && old(memory_resource_).blocks == old(memory_resource_.blocks) - {old(allocation_)}
    {
      if this == other { return; }
      Clear();
      MoveFrom(other);
    }

    method DestroyAll()
      requires Owning()
      modifies memory_resource_
      ensures memory_resource_.Valid() && memory_resource_.blocks == old(memory_resource_.blocks)
      ensures memory_resource_.destroyed == old(memory_resource_.destroyed) + Unwound(held, 0)
      ensures memory_resource_.living == Without(old(memory_resource_.living), held)
    {
      var i := objects_idx_;
      ghost var m, was := memory_resource_.living, memory_resource_.destroyed;
      assert held[i..] == [] && Without(m, []) == m;
      while i > 0
        invariant Listed() && memory_resource_.Valid() && i <= |held|
        invariant memory_resource_.blocks == old(memory_resource_.blocks)
        invariant memory_resource_.destroyed == was + Unwound(held, i)
        invariant memory_resource_.living == Without(m, held[i..])
      {
        i := i - 1;
        DestroyAt(i, m);
      }
      assert held[0..] == held;
    }

    method DestroyAt(i: nat, ghost m: map<nat, nat>)
      requires Listed() && i < |held| && held[i] in m && memory_resource_ != null && memory_resource_.Valid()
      requires memory_resource_.living == Without(m, held[i + 1..])
      modifies memory_resource_
      ensures memory_resource_.Valid() && memory_resource_.living == Without(m, held[i..])
      ensures memory_resource_.blocks == old(memory_resource_.blocks)
      ensures memory_resource_.destroyed == old(memory_resource_.destroyed) + [held[i]]
    {
      WithoutNext(m, held, i);
      memory_resource_.Destroy(data_ + objects_[i].offset);
    }
  }
}
