/** Where the argument pack puts its objects: the sizes computed at compile time and the run-time placement. */
module RttLayout {
  import opened Bits
  import opened Wrappers

  type Size = n: nat | n > 0 witness 1

  type Log = k: nat | k < 64

  /** An object type: its size and the binary logarithm of its alignment. */
  datatype Type = Type(size: Size, log: Log)
  {
    function Align(): (a: nat)
      ensures a > 0
    {
      Pow2(log)
    }
  }

  /** An argument as declared, reference stripped, and the decayed type that is stored. */
  datatype Arg = Arg(declared: Type, decayed: Type)

  // ---------- rounding up ----------

  /** `align_up` on 64-bit words. */
  function AlignUp(n: nat, align: nat): nat
    requires 0 < align <= U64
  {
    And((n + align - 1) % U64, Not64(align - 1))
  }

  /** The least multiple of `a` from `n` on. */
  function RoundUp(n: nat, a: nat): (r: nat)
    requires a > 0
    ensures n <= r < n + a
    decreases n
  {
    if n == 0 then 0 else if n <= a then a else a + RoundUp(n - a, a)
  }

  lemma {:induction false} RoundUpIsMultiple(n: nat, a: nat)
    requires a > 0
    ensures RoundUp(n, a) % a == 0
    ensures RoundUp(n, a) == (n + a - 1) - (n + a - 1) % a
    decreases n
  {
    if n > a {
      RoundUpIsMultiple(n - a, a);
      var r := RoundUp(n - a, a);
      ModUnique(a + r, a, r / a + 1, 0);
    }
    var x, r := n + a - 1, RoundUp(n, a);
    assert r % a == 0 by {
      if n == 0 {
        ModUnique(0, a, 0, 0);
      } else if n <= a {
        ModUnique(a, a, 1, 0);
      }
    }
    ModUnique(x, a, r / a, x - r);
  }

  lemma LeastMultiple(n: nat, a: nat, m: nat)
    requires a > 0 && n <= m && m % a == 0
    ensures RoundUp(n, a) <= m
  {
    RoundUpIsMultiple(n, a);
    var i, j := RoundUp(n, a) / a, m / a;
    Spaced(a, i, j);
    assert RoundUp(n, a) == a * i && m == a * j;
  }

  lemma Spaced(a: nat, i: nat, j: nat)
    requires a > 0
    ensures a * i > a * j ==> a * i >= a * j + a
  {
    if i > j {
      assert a * (i - j - 1) >= 0;
    } else {
      assert a * (j - i) >= 0;
    }
  }

  lemma {:induction false} Pow2Add(i: nat, j: nat)
    ensures Pow2(i + j) == Pow2(i) * Pow2(j)
  {
    if i != 0 {
      Pow2Add(i - 1, j);
    }
  }

  lemma Pow2Of64()
    ensures Pow2(64) == U64
  {
    assert Pow2(8) == 256;
    Pow2Add(8, 8);
    Pow2Add(16, 16);
    Pow2Add(32, 32);
  }

  lemma {:induction false} Pow2Grows(i: nat, j: nat)
    requires i <= j
    ensures Pow2(i) <= Pow2(j)
  {
    if i < j {
      Pow2Grows(i, j - 1);
    }
  }

  lemma AlignFits(t: Type)
    ensures t.Align() <= U64
  {
    Pow2Grows(t.log, 64);
    Pow2Of64();
  }

  /** The bit trick rounds up to a power of two, as long as the sum does not wrap. */
  lemma AlignUpRounds(n: nat, t: Type)
    requires n + t.Align() - 1 < U64
    ensures t.Align() <= U64 && AlignUp(n, t.Align()) == RoundUp(n, t.Align())
  {
    var a := t.Align();
    AlignFits(t);
    Masked(n + a - 1, t.log);
    RoundUpIsMultiple(n, a);
    ModUnique(n + a - 1, U64, 0, n + a - 1);
    assert AlignUp(n, a) == And(n + a - 1, U64 - a);
  }

  lemma Masked(x: nat, k: Log)
    requires x < U64
    ensures Pow2(k) <= U64 && And(x, U64 - Pow2(k)) == x - x % Pow2(k)
  {
    Pow2Of64();
    AndHighMask(x, 64, k);
  }

  // ---------- compile time ----------

  function GetSize(n: nat, types: seq<Type>): nat
    decreases |types|
  {
    if types == [] then n
    else
      AlignFits(types[0]);
      GetSize((AlignUp(n, types[0].Align()) + types[0].size) % U64, types[1..])
  }

  /** No more than this can the layout from `n` on take. */
  function Bound(n: nat, types: seq<Type>): nat
    decreases |types|
  {
    if types == [] then n else Bound(n + types[0].Align() + types[0].size, types[1..])
  }

  /** The offsets that rounding each start up gives. */
  function Offsets(n: nat, types: seq<Type>): seq<nat>
    decreases |types|
  {
    if types == [] then []
    else
      var at := RoundUp(n, types[0].Align());
      [at] + Offsets(at + types[0].size, types[1..])
  }

  function End(n: nat, types: seq<Type>): nat
    decreases |types|
  {
    if types == [] then n else End(RoundUp(n, types[0].Align()) + types[0].size, types[1..])
  }

  lemma {:induction false} BoundGrows(m: nat, n: nat, types: seq<Type>)
    requires m <= n
    ensures n <= Bound(n, types) && Bound(m, types) <= Bound(n, types)
    decreases |types|
  {
    if types != [] {
      var more := types[0].Align() + types[0].size;
      BoundGrows(m + more, n + more, types[1..]);
    }
  }

  lemma {:induction false} EndGrows(n: nat, types: seq<Type>)
    ensures n <= End(n, types)
    decreases |types|
  {
    if types != [] {
      EndGrows(RoundUp(n, types[0].Align()) + types[0].size, types[1..]);
    }
  }

  /** The size reserved is where the last object ends. */
  lemma {:induction false} GetSizeIsEnd(n: nat, types: seq<Type>)
    requires Bound(n, types) < U64
    ensures GetSize(n, types) == End(n, types)
    decreases |types|
  {
    if types != [] {
      var t, rest := types[0], types[1..];
      var next := RoundUp(n, t.Align()) + t.size;
      BoundGrows(next, n + t.Align() + t.size, rest);
      AlignUpRounds(n, t);
      GetSizeIsEnd(next, rest);
      assert next % U64 == next by {
        ModUnique(next, U64, 0, next);
      }
    }
  }

  // ---------- run time ----------

  /** `force_align` at `volume` of a block at `base`: the offset, or nothing, where the source aborts. */
  function ForceAlign(base: nat, volume: nat, capacity: nat, t: Type): Option<nat>
    requires volume <= capacity
  {
    var at := RoundUp(base + volume, t.Align()) - base;
    if at - volume + t.size <= capacity - volume then Some(at) else None
  }

  lemma ForceAlignFits(base: nat, volume: nat, capacity: nat, t: Type)
    requires volume <= capacity && ForceAlign(base, volume, capacity, t).Some?
    ensures var at := ForceAlign(base, volume, capacity, t).value;
      volume <= at && at + t.size <= capacity && (base + at) % t.Align() == 0
  {
    RoundUpIsMultiple(base + volume, t.Align());
  }

  function Place(base: nat, volume: nat, capacity: nat, types: seq<Type>): Option<seq<nat>>
    requires volume <= capacity
    decreases |types|
  {
    if types == [] then Some([])
    else
      var at := ForceAlign(base, volume, capacity, types[0]);
      if at.None? then None
      else
        var rest := Place(base, at.value + types[0].size, capacity, types[1..]);
        if rest.None? then None else Some([at.value] + rest.value)
  }

  /** The address is a multiple of every alignment. */
  predicate Suits(base: nat, types: seq<Type>)
  {
    forall i :: 0 <= i < |types| ==> base % types[i].Align() == 0
  }

  lemma SuitsTail(base: nat, types: seq<Type>)
    requires types != []
    ensures Suits(base, types) <==> base % types[0].Align() == 0 && Suits(base, types[1..])
  {
    var rest := types[1..];
    assert forall i :: 1 <= i < |types| ==> types[i] == rest[i - 1];
  }

  /** Rounding an address up amounts to rounding the offset up exactly when the base is a multiple. */
  lemma ShiftRounds(base: nat, n: nat, a: nat)
    requires a > 0
    ensures RoundUp(base + n, a) == base + RoundUp(n, a) <==> base % a == 0
  {
    if base % a == 0 {
      ShiftUp(base, n, a, base / a);
    }
    if RoundUp(base + n, a) == base + RoundUp(n, a) {
      RoundUpIsMultiple(n, a);
      RoundUpIsMultiple(base + n, a);
      Difference(RoundUp(base + n, a), RoundUp(n, a), a);
    }
  }

  lemma {:induction false} ShiftUp(base: nat, n: nat, a: nat, k: nat)
    requires a > 0 && base == a * k
    ensures RoundUp(base + n, a) == base + RoundUp(n, a)
    decreases k
  {
    if k != 0 {
      assert base - a == a * (k - 1) >= 0;
      ShiftUp(base - a, n, a, k - 1);
    }
  }

  lemma Difference(x: nat, y: nat, a: nat)
    requires a > 0 && x % a == 0 && y % a == 0 && y <= x
    ensures (x - y) % a == 0
  {
    assert x == a * (x / a) && y == a * (y / a);
    ModUnique(x - y, a, x / a - y / a, 0);
  }

  /**
   The objects land on the compile-time offsets exactly when they fit and the block's address is a
   multiple of every alignment.
   */
  lemma {:induction false} PlacedExactly(base: nat, n: nat, capacity: nat, types: seq<Type>)
    requires n <= capacity
    ensures Place(base, n, capacity, types) == Some(Offsets(n, types))
       <==> Suits(base, types) && End(n, types) <= capacity
    decreases |types|
  {
    if types != [] {
      var t, rest := types[0], types[1..];
      var at := RoundUp(n, t.Align());
      ShiftRounds(base, n, t.Align());
      SuitsTail(base, types);
      EndGrows(at + t.size, rest);
      var q := Place(base, n, capacity, types);
      if base % t.Align() != 0 {
        assert q.Some? ==> q.value[0] != at;
      } else if at + t.size <= capacity {
        PlacedExactly(base, at + t.size, capacity, rest);
        var p := Place(base, at + t.size, capacity, rest);
        assert p.Some? ==> q == Some([at] + p.value) && q.value[1..] == p.value;
        assert Offsets(n, types)[1..] == Offsets(at + t.size, rest);
      }
    }
  }

  /** On a suitable block the placement succeeds exactly when it fits. */
  lemma {:induction false} FailsOnlyForSpace(base: nat, n: nat, capacity: nat, types: seq<Type>)
    requires n <= capacity && Suits(base, types)
    ensures Place(base, n, capacity, types).Some? <==> End(n, types) <= capacity
    decreases |types|
  {
    if types != [] {
      var t, rest := types[0], types[1..];
      var next := RoundUp(n, t.Align()) + t.size;
      ShiftRounds(base, n, t.Align());
      SuitsTail(base, types);
      EndGrows(next, rest);
      if next <= capacity {
        FailsOnlyForSpace(base, next, capacity, rest);
      }
    }
  }

  lemma {:induction false} SlotsAligned(base: nat, n: nat, capacity: nat, types: seq<Type>, at: seq<nat>)
    requires n <= capacity && Place(base, n, capacity, types) == Some(at)
    ensures |at| == |types|
    ensures forall i :: 0 <= i < |at| ==> (base + at[i]) % types[i].Align() == 0
    decreases |types|
  {
    if types != [] {
      ForceAlignFits(base, n, capacity, types[0]);
      SlotsAligned(base, at[0] + types[0].size, capacity, types[1..], at[1..]);
      assert forall i :: 1 <= i < |at| ==> at[i] == at[1..][i - 1] && types[i] == types[1..][i - 1];
    }
  }

  /** Wherever the block lies, what is placed is aligned, in order without overlap, and inside. */
  lemma {:induction false} SlotsApart(base: nat, n: nat, capacity: nat, types: seq<Type>, at: seq<nat>)
    requires n <= capacity && Place(base, n, capacity, types) == Some(at)
    ensures |at| == |types|
    ensures forall i :: 0 <= i < |at| ==> (base + at[i]) % types[i].Align() == 0
    ensures forall i :: 0 <= i < |at| ==> n <= at[i] && at[i] + types[i].size <= capacity
    ensures forall i, j :: 0 <= i < j < |at| ==> at[i] + types[i].size <= at[j]
    decreases |types|
  {
    SlotsAligned(base, n, capacity, types, at);
    SlotsInOrder(base, n, capacity, types, at);
  }

  lemma {:induction false} SlotsInOrder(base: nat, n: nat, capacity: nat, types: seq<Type>, at: seq<nat>)
    requires n <= capacity && Place(base, n, capacity, types) == Some(at)
    ensures |at| == |types|
    ensures forall i :: 0 <= i < |at| ==> n <= at[i] && at[i] + types[i].size <= capacity
    ensures forall i, j :: 0 <= i < j < |at| ==> at[i] + types[i].size <= at[j]
    decreases |types|
  {
    if types != [] {
      ForceAlignFits(base, n, capacity, types[0]);
      SlotsInOrder(base, at[0] + types[0].size, capacity, types[1..], at[1..]);
      assert forall i :: 1 <= i < |at| ==> at[i] == at[1..][i - 1] && types[i] == types[1..][i - 1];
    }
  }

  // ---------- the constructor ----------

  function Declared(args: seq<Arg>): (d: seq<Type>)
    ensures |d| == |args| && forall i :: 0 <= i < |args| ==> d[i] == args[i].declared
  {
    if args == [] then [] else [args[0].declared] + Declared(args[1..])
  }

  function Decayed(args: seq<Arg>): (d: seq<Type>)
    ensures |d| == |args| && forall i :: 0 <= i < |args| ==> d[i] == args[i].decayed
  {
    if args == [] then [] else [args[0].decayed] + Decayed(args[1..])
  }

  /** Storing the arguments at `base` runs out of the space reserved. */
  predicate Aborts(base: nat, args: seq<Arg>)
  {
    Place(base, 0, GetSize(0, Declared(args)), Decayed(args)).None?
  }

  /** The constructor completes exactly when the decayed arguments take no more than the declared ones. */
  lemma ConstructedExactly(base: nat, args: seq<Arg>)
    requires Suits(base, Decayed(args)) && Bound(0, Declared(args)) < U64
    ensures !Aborts(base, args) <==> End(0, Decayed(args)) <= End(0, Declared(args))
  {
    GetSizeIsEnd(0, Declared(args));
    FailsOnlyForSpace(base, 0, GetSize(0, Declared(args)), Decayed(args));
  }

  /** Arguments whose types do not decay are stored, at the compile-time offsets, wherever the address suits them. */
  lemma PlainArgumentsFit(base: nat, args: seq<Arg>)
    requires Bound(0, Declared(args)) < U64
    requires forall i :: 0 <= i < |args| ==> args[i].declared == args[i].decayed
    ensures Place(base, 0, GetSize(0, Declared(args)), Decayed(args)) == Some(Offsets(0, Decayed(args)))
       <==> Suits(base, Decayed(args))
  {
    assert Declared(args) == Decayed(args);
    GetSizeIsEnd(0, Declared(args));
    PlacedExactly(base, 0, GetSize(0, Declared(args)), Decayed(args));
  }

  /** A string literal of three bytes reserves three and stores a pointer of eight: the constructor aborts. */
  lemma ArrayArgumentAborts(base: nat, args: seq<Arg>)
    requires args == [Arg(Type(3, 0), Type(8, 3))] && base % 8 == 0
    ensures Suits(base, Decayed(args)) && Aborts(base, args)
  {
    assert Pow2(0) == 1 && Pow2(3) == 8;
    assert Declared(args) == [Type(3, 0)] && Decayed(args) == [Type(8, 3)];
    assert End(0, [Type(3, 0)]) == 3 && End(0, [Type(8, 3)]) == 8;
    ConstructedExactly(base, args);
  }
}
