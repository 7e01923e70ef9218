/**
 The packed actor state word: three flags in the low bits of a uint32_t, the number of in-flight
 senders above them, and the record it stands for.
 */
module StateWord {
  import opened Wrappers
  import opened Bits

  /** What the packed word means. */
  datatype Word = Word(scheduled: bool, running: bool, destroying: bool, senders: nat)

  const K_SENDER_STEP: nat := 8

  /** The count that `enqueue_impl` asserts it stays below before it adds a sender. */
  const MAX_SENDERS: nat := 0x1FFF_FFFF

  /** A uint32_t. */
  type Packed = n: nat | n < U32

  predicate IsScheduled(s: Packed) { And(s, 1) != 0 }

  predicate IsRunning(s: Packed) { And(s, 2) != 0 }

  predicate IsDestroying(s: Packed) { And(s, 4) != 0 }

  // A result that leaves the 32-bit range is reduced as the hardware would.
  function Wrap(n: int): Packed { n % U32 }

  function SetScheduled(s: Packed, value: bool): Packed
  {
    UpdatesFit(s);
    if value then Or(s, 1) else And(s, Not32(1))
  }

  function SetRunning(s: Packed, value: bool): Packed
  {
    UpdatesFit(s);
    if value then Or(s, 2) else And(s, Not32(2))
  }

  function SetDestroying(s: Packed): Packed
  {
    UpdatesFit(s);
    Or(s, 4)
  }

  function SenderCount(s: Packed): nat { s / K_SENDER_STEP }

  function FlagsOf(s: Packed): Packed { s % K_SENDER_STEP }

  function AddSender(s: Packed): Packed { Wrap(s + K_SENDER_STEP) }

  function SubSender(s: Packed): Packed { Wrap(s - K_SENDER_STEP) }

  function MakeState(scheduled: bool, running: bool, destroying: bool): Packed
  {
    var b0 := 0;
    var b1 := if scheduled then Or(b0, 1) else b0;
    var b2 := if running then Or(b1, 2) else b1;
    Wrap(if destroying then Or(b2, 4) else b2)
  }

  /** The record a packed word stands for. */
  function Unpack(s: Packed): Word
  {
    Word(IsScheduled(s), IsRunning(s), IsDestroying(s), SenderCount(s))
  }

  /** The packed word of a record. */
  function Pack(w: Word): Packed
    requires w.senders <= MAX_SENDERS
  {
    w.senders * K_SENDER_STEP + (if w.scheduled then 1 else 0) + (if w.running then 2 else 0) + (if w.destroying then 4 else 0)
  }

  // The bit tests and updates in arithmetic form, one lemma for each mask.
  lemma TestForms(s: nat)
    ensures And(s, 1) == s % 2
    ensures And(s, 2) == 2 * (s / 2 % 2)
    ensures And(s, 4) == 4 * (s / 2 / 2 % 2)
  {
    AndStep(s, 1);
    AndStep(s, 2); AndStep(s / 2, 1);
    AndStep(s, 4); AndStep(s / 2, 2); AndStep(s / 2 / 2, 1);
  }

  lemma SetForms(s: nat)
    ensures Or(s, 1) == s - s % 2 + 1
    ensures Or(s, 2) == s + 2 - 2 * (s / 2 % 2)
    ensures Or(s, 4) == s + 4 - 4 * (s / 2 / 2 % 2)
  {
    OrStep(s, 1);
    OrStep(s, 2); OrStep(s / 2, 1);
    OrStep(s, 4); OrStep(s / 2, 2); OrStep(s / 2 / 2, 1);
  }

  lemma ClearForms(s: Packed)
    ensures And(s, Not32(1)) == s - s % 2
    ensures And(s, Not32(2)) == s - 2 * (s / 2 % 2)
  {
    PowersUsed();
    AndHighMask(s, 32, 1);
    AndHighMask(s / 2, 31, 1);
    AndStep(s, Not32(2));
  }

  // The arithmetic forms stay inside the word.
  lemma FormsFit(s: Packed)
    ensures 0 <= s - s % 2 && s - s % 2 + 1 < U32
    ensures 0 <= s - 2 * (s / 2 % 2) && s + 2 - 2 * (s / 2 % 2) < U32
    ensures s + 4 - 4 * (s / 2 / 2 % 2) < U32
  {
    assert s / 2 < U32 / 2 && s / 2 / 2 < U32 / 4;
  }

  lemma UpdatesFit(s: Packed)
    ensures Or(s, 1) < U32 && Or(s, 2) < U32 && Or(s, 4) < U32
    ensures And(s, Not32(1)) < U32 && And(s, Not32(2)) < U32
  {
    FormsFit(s);
    SetForms(s);
    ClearForms(s);
  }

  lemma PowersUsed()
    ensures Pow2(1) == 2 && Pow2(31) == 0x8000_0000 && Pow2(32) == U32
  {
    assert Pow2(8) == 256;
    assert Pow2(16) == 0x1_0000;
    assert Pow2(24) == 0x100_0000;
    assert Pow2(31) == 0x8000_0000;
  }

  // The three lowest digits of a word, and what stands above them.
  lemma Digits(s: nat, n: nat, b0: bool, b1: bool, b2: bool)
    requires s == 8 * n + 4 * One(b2) + 2 * One(b1) + One(b0)
    ensures s % 2 == One(b0) && s / 2 % 2 == One(b1) && s / 2 / 2 % 2 == One(b2) && s / 8 == n
  {
    var r := 2 * n + One(b2);
    var q := 2 * r + One(b1);
    ModUnique(s, 2, q, One(b0));
    ModUnique(q, 2, r, One(b1));
    ModUnique(r, 2, n, One(b2));
    ModUnique(s, 8, n, 4 * One(b2) + 2 * One(b1) + One(b0));
  }

  lemma PackedDigits(w: Word)
    requires w.senders <= MAX_SENDERS
    ensures var s := Pack(w);
            && s % 2 == One(w.scheduled) && s / 2 % 2 == One(w.running) && s / 2 / 2 % 2 == One(w.destroying)
            && s / 8 == w.senders
  {
    Digits(Pack(w), w.senders, w.scheduled, w.running, w.destroying);
  }

  // A word in the shape of its record.
  lemma PackedShape(w: Word)
    requires w.senders <= MAX_SENDERS
    ensures Unpack(Pack(w)) == w
  {
    TestForms(Pack(w));
    PackedDigits(w);
  }

  lemma RecordShape(s: Packed)
    ensures SenderCount(s) <= MAX_SENDERS && Pack(Unpack(s)) == s
  {
    TestForms(s);
  }

  // The arithmetic of each update on the word of a record.
  lemma UpdateArithmetic(w: Word)
    requires w.senders <= MAX_SENDERS
    ensures var s := Pack(w);
            && s - s % 2 + 1 == Pack(w.(scheduled := true))
            && s - s % 2 == Pack(w.(scheduled := false))
            && s + 2 - 2 * (s / 2 % 2) == Pack(w.(running := true))
            && s - 2 * (s / 2 % 2) == Pack(w.(running := false))
            && s + 4 - 4 * (s / 2 / 2 % 2) == Pack(w.(destroying := true))
  {
    PackedDigits(w);
  }

  // Each flag update, as the packed word of the updated record.
  lemma SetScheduledShape(w: Word, value: bool)
    requires w.senders <= MAX_SENDERS
    ensures SetScheduled(Pack(w), value) == Pack(w.(scheduled := value))
  {
    UpdateArithmetic(w);
    SetForms(Pack(w));
    ClearForms(Pack(w));
  }

  lemma SetRunningShape(w: Word, value: bool)
    requires w.senders <= MAX_SENDERS
    ensures SetRunning(Pack(w), value) == Pack(w.(running := value))
  {
    UpdateArithmetic(w);
    SetForms(Pack(w));
    ClearForms(Pack(w));
  }

  lemma SetDestroyingShape(w: Word)
    requires w.senders <= MAX_SENDERS
    ensures SetDestroying(Pack(w)) == Pack(w.(destroying := true))
  {
    UpdateArithmetic(w);
    SetForms(Pack(w));
    ClearForms(Pack(w));
  }

  /** Flag updates act on their own flag and leave the sender count and the other flags alone. */
  lemma FlagUpdates(s: Packed, value: bool)
    ensures Unpack(SetScheduled(s, value)) == Unpack(s).(scheduled := value)
    ensures Unpack(SetRunning(s, value)) == Unpack(s).(running := value)
    ensures Unpack(SetDestroying(s)) == Unpack(s).(destroying := true)
  {
    RecordShape(s);
    var w := Unpack(s);
    SetScheduledShape(w, value);
    SetRunningShape(w, value);
    SetDestroyingShape(w);
    PackedShape(w.(scheduled := value));
    PackedShape(w.(running := value));
    PackedShape(w.(destroying := true));
  }

  /**
   Adding a sender increments the count and disturbs no flag exactly below the asserted bound; at the
   bound the carry leaves the word and the count reads zero.
   */
  lemma AddSenderExactly(s: Packed)
    ensures Unpack(AddSender(s)) == Unpack(s).(senders := SenderCount(s) + 1) <==> SenderCount(s) < MAX_SENDERS
    ensures SenderCount(s) == MAX_SENDERS ==> Unpack(AddSender(s)) == Unpack(s).(senders := 0)
  {
    RecordShape(s);
    var w := Unpack(s);
    if w.senders < MAX_SENDERS {
      assert AddSender(s) == Pack(w.(senders := w.senders + 1));
      PackedShape(w.(senders := w.senders + 1));
    } else {
      assert AddSender(s) == Pack(w.(senders := 0));
      PackedShape(w.(senders := 0));
    }
  }

  /** A sender that leaves decrements the count and disturbs no flag, provided one was registered. */
  lemma SubSenderExactly(s: Packed)
    requires SenderCount(s) > 0
    ensures Unpack(SubSender(s)) == Unpack(s).(senders := SenderCount(s) - 1)
  {
    RecordShape(s);
    var w := Unpack(s);
    assert SubSender(s) == Pack(w.(senders := w.senders - 1));
    PackedShape(w.(senders := w.senders - 1));
  }

  /** `flags_of` drops the count and `make_state` rebuilds a word whose count is zero. */
  lemma RebuiltWords(s: Packed, scheduled: bool, running: bool, destroying: bool)
    ensures Unpack(FlagsOf(s)) == Unpack(s).(senders := 0)
    ensures Unpack(MakeState(scheduled, running, destroying)) == Word(scheduled, running, destroying, 0)
  {
    RecordShape(s);
    var w := Unpack(s);
    assert FlagsOf(s) == Pack(w.(senders := 0));
    PackedShape(w.(senders := 0));
    SetForms(0);
    SetForms(1);
    SetForms(2);
    SetForms(3);
    var m := Word(scheduled, running, destroying, 0);
    assert MakeState(scheduled, running, destroying) == Pack(m);
    PackedShape(m);
  }

  /** The packed words and the records with a count in range are in bijection. */
  lemma PackUnpack(w: Word, s: Packed)
    requires w.senders <= MAX_SENDERS
    ensures Unpack(Pack(w)) == w
    ensures SenderCount(s) <= MAX_SENDERS && Pack(Unpack(s)) == s
  {
    PackedShape(w);
    RecordShape(s);
  }
}
