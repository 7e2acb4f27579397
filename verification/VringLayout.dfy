/** Where the parts of a vring lie in memory (`virtio_ring.h`) and how much room the platform
    macros reserve for one (`rpmsg_platform.h`). Addresses and sizes are 32-bit.
 */
module VringLayout {
  import opened Words

  const DESC_SIZE := 16      // sizeof(struct vring_desc)
  const AVAIL_SIZE := 6      // sizeof(struct vring_avail), one ring entry included
  const USED_ELEM_SIZE := 8  // sizeof(struct vring_used_elem)
  const USED_SIZE := 12      // sizeof(struct vring_used), one ring entry included
  const MAX_ALIGN := 0x1_0000

  /** The alignments accepted at compile time (RL_MAX_VRING_ALIGN). */
  ghost predicate RingAlign(a: int) {
    IsPow2(a) && a <= MAX_ALIGN
  }

  function ToInt32(x: u32): int {
    if x < 0x8000_0000 then x else x - U32
  }

  /** `vring_size`, every addition in 32-bit arithmetic, the result cast to a signed int. */
  function VringSize(num: u32, align: u32): int
    requires 0 < align
  {
    var s0: u32 := (num * DESC_SIZE) % U32;
    var s1: u32 := (s0 + AVAIL_SIZE + num * 2 + 2) % U32;
    var s2: u32 := AlignUp(s1, align);
    ToInt32((s2 + USED_SIZE + num * USED_ELEM_SIZE + 2) % U32)
  }

  /** The pointers that `vring_init` stores. */
  datatype Vring = Vring(num: nat, desc: nat, avail: nat, used: nat) {
    /** `&avail->ring[num]`, the used-event slot behind the avail ring. */
    function UsedEvent(): nat { avail + 4 + 2 * num }

    /** `&used->ring[num].id`, the avail-event slot behind the used ring. */
    function AvailEvent(): nat { used + 4 + USED_ELEM_SIZE * num }
  }

  /** What `vring_init` computes: the used ring starts at the end of the avail entries, rounded up. */
  function VringInit(num: nat, p: nat, align: u32): Vring
    requires 0 < align && p + 18 * num + 4 < U32
  {
    Vring(num, p, p + num * DESC_SIZE, AlignUp(p + num * DESC_SIZE + 4 + 2 * num, align))
  }

  /** `struct vring`, which `vring_init` fills in place, each pointer from the one before. */
  class VringRecord {
    var num: nat
    var desc: nat
    var avail: nat
    var used: nat

    method Init(n: nat, p: nat, align: u32)
      requires 0 < align && p + 18 * n + 4 < U32
      modifies this
      ensures Vring(num, desc, avail, used) == VringInit(n, p, align)
    {
      num := n;
      desc := p;
      avail := p + n * DESC_SIZE;
      used := AlignUp(avail + 4 + 2 * num, align);
    }
  }

  /** `VRING_SIZE`: descriptor table, avail ring and used ring, each rounded up on its own. */
  function VringSizeMacro(num: nat, align: u32): nat
    requires 0 < align && num <= 0x8000
  {
    AlignUp(num * DESC_SIZE, align) + AlignUp(AVAIL_SIZE + num * 2 + 2, align)
    + AlignUp(USED_SIZE + num * USED_ELEM_SIZE + 2, align)
  }

  /** Distance from x up to the next multiple of align. */
  function Padding(x: u32, align: u32): int
    requires 0 < align
  {
    AlignUp(x, align) - x
  }

  /** Nothing overflows for the ring sizes and alignments the build accepts. */
  lemma VringSizeIsPositive(num: nat, align: u32)
    requires RingSize(num) && RingAlign(align)
    ensures 0 < align
    ensures VringSize(num, align) == AlignUp(18 * num + 8, align) + 8 * num + 14
    ensures 26 * num + 22 <= VringSize(num, align) < 26 * num + 22 + align
    ensures 0 < VringSize(num, align) <= 0x7FFF_FFFF
  {
    hide AlignUp, IsPow2;
    var x := 18 * num + 8;
    AlignUpIsLeast(x, align);
    var r := AlignUp(x, align);
    SmallSum(num, r);
  }

  /** The 32-bit sums of `vring_size` do not wrap. */
  lemma SmallSum(num: nat, r: nat)
    requires num <= 0x8000 && r < 0x20_0000
    ensures (num * DESC_SIZE) % U32 == 16 * num
    ensures (16 * num + AVAIL_SIZE + num * 2 + 2) % U32 == 18 * num + 8
    ensures (r + USED_SIZE + num * USED_ELEM_SIZE + 2) % U32 == r + 8 * num + 14
  {
  }

  /** With an aligned base, rounding the absolute address is rounding the offset. */
  lemma AlignUpOffset(p: nat, x: nat, a: u32)
    requires IsPow2(a) && p % a == 0 && p + x + a - 1 < U32
    ensures AlignUp(p + x, a) == p + AlignUp(x, a)
  {
    AlignUpIsLeast(p + x, a);
    AlignUpIsLeast(x, a);
    SumOfMultiples(p, AlignUp(x, a), a);
    LeastMultipleUnique(p + x, a, AlignUp(p + x, a), p + AlignUp(x, a));
  }

  /** The used ring is clear of the used-event slot exactly when 18 * num + 4 is not a multiple of
      the alignment; the slot itself is left out of the sum that `vring_init` rounds up. */
  lemma UsedEventIsClear(num: nat, p: nat, align: u32)
    requires IsPow2(align) && p % align == 0 && p + 18 * num + 4 + align - 1 < U32
    ensures var v := VringInit(num, p, align);
            v.UsedEvent() + 2 <= v.used <==> (18 * num + 4) % align != 0
  {
    hide AlignUp, IsPow2;
    var x := 18 * num + 4;
    assert x == 2 * (9 * num + 2);
    AlignUpOffset(p, x, align);
    EvenRoundUp(x, align);
    var v := VringInit(num, p, align);
    assert v.UsedEvent() == p + x;
    assert v.used == AlignUp(p + x, align);
  }

  lemma EvenRoundUp(x: nat, a: u32)
    requires IsPow2(a) && x % 2 == 0 && x + a - 1 < U32
    ensures 0 < a && (x + 2 <= AlignUp(x, a) <==> x % a != 0)
  {
    AlignUpIsLeast(x, a);
    if x % a == 0 {
      LeastMultipleUnique(x, a, AlignUp(x, a), x);
    } else {
      EvenMultiple(x, a, AlignUp(x, a));
    }
  }

  /** An even number that is not a multiple of a power of two is at least 2 below the next one. */
  lemma EvenMultiple(x: nat, a: nat, r: nat)
    requires IsPow2(a) && x % 2 == 0 && x % a != 0 && r % a == 0 && x <= r
    ensures x + 2 <= r
  {
    assert x % 1 == 0;
    var k: nat :| a == Pow2(k);
    var h, q := Pow2(k - 1), r / a;
    DivMod(r, a);
    assert r == 2 * (h * q) by { assert (2 * h) * q == 2 * (h * q); }
    assert r != x;
  }

  /** Below an alignment of 16 it can lie on the slot: two entries, alignment 8. */
  lemma UsedEventCanClash()
    ensures RingSize(2) && RingAlign(8) && VringInit(2, 8, 8).used == VringInit(2, 8, 8).UsedEvent()
  {
    assert IsPow2(2) && IsPow2(8) by { assert Pow2(1) == 2 && Pow2(3) == 8; }
    AlignUpIsLeast(48, 8);
    LeastMultipleUnique(48, 8, AlignUp(48, 8), 48);
  }

  /** No ring size makes 18 * num + 4 a multiple of 16 or more. */
  lemma NoClashFrom16(num: nat, align: nat)
    requires RingSize(num) && IsPow2(align) && 16 <= align
    ensures (18 * num + 4) % align != 0
  {
    SlotOffsetMod16(num);
    Pow2Values();
    assert IsPow2(16);
    var q := Pow2Divides(16, align);
    DivisorOfDivisor(18 * num + 4, align, 16, q);
  }

  lemma SlotOffsetMod16(num: nat)
    requires IsPow2(num)
    ensures (18 * num + 4) % 16 != 0
  {
    var k: nat :| num == Pow2(k);
    if k >= 3 {
      Pow2Add(3, k - 3);
      assert num == 8 * Pow2(k - 3);
    } else {
      assert num == 1 || num == 2 || num == 4;
    }
  }

  lemma DivisorOfDivisor(x: nat, a: nat, b: nat, q: nat)
    requires 0 < b && 0 < q && a == b * q
    ensures 0 < a && (x % a == 0 ==> x % b == 0)
  {
    MulGrows(b, q);
    var d := x / a;
    DivMod(x, a);
    assert (b * q) * d == b * (q * d);
    if x % a == 0 { MulMod(b, q * d); }
  }

  /** For every accepted ring size, an alignment of 16 or more and an aligned base, the five parts
      lie one behind the other and end within `vring_size`, if that itself ends below 2^32. */
  lemma LayoutIsSound(num: nat, p: nat, align: u32)
    requires RingSize(num) && RingAlign(align) && 16 <= align
    requires p % align == 0 && p + VringSize(num, align) <= U32
    ensures p + 18 * num + 4 < U32
    ensures var v := VringInit(num, p, align);
            && v.desc == p
            && v.desc + DESC_SIZE * num == v.avail
            && v.avail + 4 + 2 * num == v.UsedEvent()
            && v.UsedEvent() + 2 <= v.used
            && v.used + 4 + USED_ELEM_SIZE * num == v.AvailEvent()
            && v.AvailEvent() + 4 <= p + VringSize(num, align)
  {
    VringSizeIsPositive(num, align);
    AlignUpIsLeast(18 * num + 8, align);
    SumOfMultiples(p, AlignUp(18 * num + 8, align), align);
    RoomBelowTop(p + AlignUp(18 * num + 8, align), align);
    UsedEventIsClear(num, p, align);
    NoClashFrom16(num, align);
    AlignUpOffset(p, 18 * num + 4, align);
    AlignUpIsLeast(18 * num + 4, align);
    MultipleAbove(18 * num + 4, align, AlignUp(18 * num + 4, align), AlignUp(18 * num + 8, align));
  }

  lemma TopIsMultiple(a: nat) returns (q: nat)
    requires IsPow2(a) && a <= MAX_ALIGN
    ensures U32 == a * q && 0 < a
  {
    Pow2Values();
    assert IsPow2(U32);
    q := Pow2Divides(a, U32);
  }

  /** A multiple of the alignment below 2^32 is at least one alignment below it. */
  lemma RoomBelowTop(r: nat, a: nat)
    requires IsPow2(a) && a <= MAX_ALIGN && r % a == 0 && r < U32
    ensures r <= U32 - a
  {
    var q := TopIsMultiple(a);
    hide IsPow2;
    DivMod(r, a);
    MulGrows(a, q - r / a);
    assert a * (q - r / a) == a * q - a * (r / a);
  }

  /** A generous bound on one vring, so that addresses stay below 2^32. */
  function VringSizeMacroBound(align: nat): nat {
    26 * 0x8000 + 22 + 3 * align
  }

  /** Whatever the base, the used ring ends within `vring_size` of it exactly when the padding in
      front of it is at most 10 bytes longer than the padding that `vring_size` counted. */
  lemma LayoutFitsExactlyWhen(num: nat, p: nat, align: u32)
    requires RingSize(num) && RingAlign(align) && p + 18 * num + 4 < U32
    ensures 0 < align
    ensures VringInit(num, p, align).AvailEvent() + 4 <= p + VringSize(num, align)
            <==> Padding(p + 18 * num + 4, align) <= Padding(18 * num + 8, align) + 10
  {
    VringSizeIsPositive(num, align);
  }

  /** The init functions align the shared memory to words only. A word-aligned base is not enough:
      two entries, 4096-byte alignment, base 4060. */
  lemma WordAlignedBaseIsNotEnough()
    ensures RingSize(2) && RingAlign(4096) && 4060 % 4 == 0
    ensures VringInit(2, 4060, 4096).AvailEvent() + 4 > 4060 + VringSize(2, 4096)
  {
    assert IsPow2(2) && IsPow2(4096) by {
      Pow2Add(6, 6);
      assert Pow2(1) == 2 && Pow2(6) == 64;
    }
    VringSizeIsPositive(2, 4096);
    AlignUpIsLeast(4100, 4096);
    AlignUpIsLeast(44, 4096);
    assert VringInit(2, 4060, 4096).used == AlignUp(4100, 4096) >= 4100;
  }

  // ---- how far init clears

  /** How much of a used ring the memset of init reaches: its flags, its index, and so many entries as
      a whole. */
  datatype Reach = Reach(flags: bool, idx: bool, entries: nat)

  /** `env_memset(ring_info.phy_addr, 0x00, vring_size(...))`, seen from the used ring behind. */
  function Reached(num: nat, p: nat, align: u32): Reach
    requires 0 < align && p + 18 * num + 4 < U32
  {
    var used, end := VringInit(num, p, align).used, p + VringSize(num, align);
    Reach(used + 2 <= end, used + 4 <= end,
          if end < used + 4 then 0 else if end - used - 4 >= 8 * num then num else (end - used - 4) / 8)
  }

  /** The index of the used ring is cleared, and then its flags are too, exactly when the padding in
      front of the ring is at most 8 * num + 14 bytes longer than what `vring_size` counted. */
  lemma HeaderReachedExactlyWhen(num: nat, p: nat, align: u32)
    requires RingSize(num) && RingAlign(align) && p + 18 * num + 4 < U32
    ensures 0 < align
    ensures Reached(num, p, align).idx
            <==> Padding(p + 18 * num + 4, align) <= Padding(18 * num + 8, align) + 8 * num + 14
    ensures Reached(num, p, align).idx ==> Reached(num, p, align).flags
  {
    VringSizeIsPositive(num, align);
    hide AlignUp, IsPow2, VringSize;
  }

  /** Up to an alignment of 16, and on an aligned base, it always is. */
  lemma HeaderReachedWhen(num: nat, p: nat, align: u32)
    requires RingSize(num) && RingAlign(align) && p + 18 * num + 4 + align - 1 < U32
    requires 0 < align && (align <= 16 || p % align == 0)
    ensures Reached(num, p, align).idx && Reached(num, p, align).flags
  {
    hide AlignUp, IsPow2, VringSize, Reached;
    HeaderReachedExactlyWhen(num, p, align);
    AlignUpIsLeast(p + 18 * num + 4, align);
    AlignUpIsLeast(18 * num + 8, align);
    if align > 16 {
      AlignUpIsLeast(18 * num + 4, align);
      AlignUpOffset(p, 18 * num + 4, align);
      MultipleAbove(18 * num + 4, align, AlignUp(18 * num + 4, align), AlignUp(18 * num + 8, align));
    }
  }

  /** On a word-aligned base a header that is not cleared as a whole keeps all bytes of its index, and
      its flags are cleared as a whole or not at all. */
  lemma HeaderByHalves(num: nat, p: nat, align: u32)
    requires RingSize(num) && RingAlign(align) && p % 4 == 0 && p + 18 * num + 4 + align - 1 < U32
    requires 0 < align && !Reached(num, p, align).idx
    ensures var used, end := VringInit(num, p, align).used, p + VringSize(num, align);
            if Reached(num, p, align).flags then end == used + 2 else end <= used
  {
    hide AlignUp, IsPow2, VringSize;
    if align <= 16 { HeaderReachedWhen(num, p, align); }
    VringSizeIsPositive(num, align);
    AlignUpIsLeast(p + 18 * num + 4, align);
    AlignUpIsLeast(18 * num + 8, align);
    var q := FourDivides(align);
    DivisorOfDivisor(AlignUp(p + 18 * num + 4, align), align, 4, q);
    DivisorOfDivisor(AlignUp(18 * num + 8, align), align, 4, q);
    EndIsHalf(p / 4, AlignUp(18 * num + 8, align) / 4, num, AlignUp(p + 18 * num + 4, align) / 4);
  }

  lemma EndIsHalf(p: nat, r: nat, num: nat, u: nat)
    ensures var d := 4 * p + (4 * r + 8 * num + 14) - 4 * u; d < 4 ==> d == 2 || d <= 0
  {
    var m: int := p + r + 2 * num - u + 3;
    assert 4 * p + (4 * r + 8 * num + 14) - 4 * u == 4 * m + 2;
  }

  /** The used header can be out of reach: two entries, 4096-byte alignment, base 4060. */
  lemma HeaderNotReached()
    ensures RingSize(2) && RingAlign(4096) && 4060 % 4 == 0
    ensures Reached(2, 4060, 4096) == Reach(false, false, 0)
    ensures VringInit(2, 4060, 4096).used >= 4060 + VringSize(2, 4096)
  {
    WordAlignedBaseIsNotEnough();
    VringSizeIsPositive(2, 4096);
    AlignUpIsLeast(4100, 4096);
    AlignUpIsLeast(44, 4096);
    LeastMultipleUnique(4100, 4096, AlignUp(4100, 4096), 8192);
    LeastMultipleUnique(44, 4096, AlignUp(44, 4096), 4096);
    hide AlignUp;
  }

  /** `VRING_SIZE` keeps the alignment and is never smaller than `vring_size`. */
  lemma MacroCoversVringSize(num: nat, align: u32)
    requires RingSize(num) && RingAlign(align)
    ensures 0 < align
    ensures VringSizeMacro(num, align) % align == 0
    ensures VringSize(num, align) <= VringSizeMacro(num, align) < VringSizeMacroBound(align)
  {
    VringSizeIsPositive(num, align);
    hide VringSize, VringSizeMacro, AlignUp, IsPow2;
    var x, y, z := num * DESC_SIZE, AVAIL_SIZE + num * 2 + 2, USED_SIZE + num * USED_ELEM_SIZE + 2;
    RoundedParts(x, y, align);
    AlignUpIsLeast(z, align);
    SumOfMultiples(AlignUp(x, align) + AlignUp(y, align), AlignUp(z, align), align);
    assert x + y == 18 * num + 8 && z == 8 * num + 14;
    MacroParts(num, align);
  }

  lemma MacroParts(num: nat, align: u32)
    requires 0 < align && num <= 0x8000
    ensures VringSizeMacro(num, align)
            == AlignUp(num * DESC_SIZE, align) + AlignUp(AVAIL_SIZE + num * 2 + 2, align)
               + AlignUp(USED_SIZE + num * USED_ELEM_SIZE + 2, align)
  {
    hide AlignUp;
  }

  /** Rounding two parts one by one gives a multiple that is not below rounding their sum. */
  lemma RoundedParts(x: nat, y: nat, a: u32)
    requires IsPow2(a) && x + y + a - 1 < U32
    ensures 0 < a && (AlignUp(x, a) + AlignUp(y, a)) % a == 0
    ensures AlignUp(x + y, a) <= AlignUp(x, a) + AlignUp(y, a) < x + y + 2 * a
  {
    AlignUpIsLeast(x, a);
    AlignUpIsLeast(y, a);
    AlignUpIsLeast(x + y, a);
    SumOfMultiples(AlignUp(x, a), AlignUp(y, a), a);
    MultipleAbove(x + y, a, AlignUp(x + y, a), AlignUp(x, a) + AlignUp(y, a));
  }

  // ---- vrings on a base that is aligned to words only

  /** An address and a boundary that are multiples of four, or even, are as far apart as that allows. */
  lemma PaddingBelow(x: u32, a: u32)
    requires IsPow2(a) && 4 <= a && x + a - 1 < U32
    ensures x % 4 == 0 ==> AlignUp(x, a) <= x + a - 4
    ensures x % 2 == 0 ==> AlignUp(x, a) <= x + a - 2
  {
    hide AlignUp, IsPow2;
    AlignUpIsLeast(x, a);
    var q := FourDivides(a);
    DivisorOfDivisor(AlignUp(x, a), a, 4, q);
    MultiplesApart(AlignUp(x, a), x, q);
  }

  lemma MultiplesApart(r: nat, x: nat, q: nat)
    requires r % 4 == 0 && r < x + 4 * q
    ensures x % 4 == 0 ==> r <= x + 4 * q - 4
    ensures x % 2 == 0 ==> r <= x + 4 * q - 2
  {
    DivMod(r, 4);
    DivMod(x, 4);
    DivMod(x, 2);
  }

  lemma FourDivides(a: nat) returns (q: nat)
    requires IsPow2(a) && 4 <= a
    ensures a == 4 * q
  {
    Pow2Values();
    assert IsPow2(4);
    q := Pow2Divides(4, a);
  }

  /** Twice, and eight times, a power of two is a multiple of a or at most half of it. */
  lemma MultipleOrHalf(m: nat, a: nat)
    requires IsPow2(m) && IsPow2(a)
    ensures 0 < a && (m % a == 0 || 2 * m <= a)
  {
    var i: nat :| m == Pow2(i);
    var j: nat :| a == Pow2(j);
    if i >= j {
      Pow2Add(j, i - j);
      MulMod(a, Pow2(i - j));
    } else {
      Pow2Monotone(i + 1, j);
    }
  }

  lemma Doubled(n: nat)
    requires IsPow2(n)
    ensures IsPow2(2 * n) && IsPow2(8 * n) && IsPow2(16 * n)
  {
    var k: nat :| n == Pow2(k);
    assert 2 * n == Pow2(k + 1);
    assert 4 * n == Pow2(k + 2);
    assert 8 * n == Pow2(k + 3);
    assert 16 * n == Pow2(k + 4);
  }

  /** Rounding up a power of two and a few bytes more. */
  lemma RoundedPart(m: nat, extra: nat, a: u32)
    requires IsPow2(m) && RingAlign(a) && 0 < extra <= a && m + extra + a - 1 < U32
    ensures m % a == 0 ==> AlignUp(m + extra, a) == m + a
    ensures m % a != 0 ==> 2 * m <= a && (m + extra <= a ==> AlignUp(m + extra, a) == a)
  {
    MultipleOrHalf(m, a);
    AlignUpIsLeast(m + extra, a);
    ModAddMultiple(0, a, 1);
    if m % a == 0 {
      SumOfMultiples(m, a, a);
      LeastMultipleUnique(m + extra, a, AlignUp(m + extra, a), m + a);
    } else if m + extra <= a {
      LeastMultipleUnique(m + extra, a, AlignUp(m + extra, a), a);
    }
  }

  /** How much longer the macro is than its parts. */
  function Spare(num: nat, align: u32): int
    requires 0 < align && num <= 0x8000
  {
    VringSizeMacro(num, align) - (26 * num + 22)
  }

  /** The rounding of the three parts makes up for the padding in front of the used ring. */
  lemma SpareBound(num: nat, align: u32)
    requires RingSize(num) && RingAlign(align)
    ensures 0 < align && 0 <= Spare(num, align)
    ensures align >= 16 ==> Spare(num, align) >= align - 14 && (num == 1 ==> Spare(num, align) >= align - 12)
  {
    hide AlignUp;
    AlignUpIsLeast(16 * num, align);
    AlignUpIsLeast(2 * num + 8, align);
    AlignUpIsLeast(8 * num + 14, align);
    if align >= 16 { SpareAtLeast(num, align); }
  }

  lemma SpareAtLeast(num: nat, align: u32)
    requires RingSize(num) && RingAlign(align) && 16 <= align
    ensures Spare(num, align) >= align - 14 && (num == 1 ==> Spare(num, align) >= align - 12)
  {
    hide AlignUp, IsPow2;
    Doubled(num);
    SparePow2(align);
    SmallVring(num);
    RoundedPart(2 * num, 8, align);
    RoundedPart(8 * num, 14, align);
    var a, b, c := AlignUp(16 * num, align), AlignUp(2 * num + 8, align), AlignUp(8 * num + 14, align);
    AlignUpIsLeast(16 * num, align);
    AlignUpIsLeast(2 * num + 8, align);
    AlignUpIsLeast(8 * num + 14, align);
    PositiveMultiple(a, align);
    PositiveMultiple(c, align);
    if align == 16 {
      SpareAt16(num, a, b, c, (2 * num) % 16 == 0, (8 * num) % 16 == 0);
    } else {
      SpareFrom32(num, align, a, b, c, (2 * num) % align == 0, (8 * num) % align == 0);
    }
  }

  lemma SpareAt16(n: nat, a: nat, b: nat, c: nat, twice: bool, eightfold: bool)
    requires n >= 1 && a >= 16 * n && c >= 8 * n + 14 && c % 16 == 0 && eightfold == ((8 * n) % 16 == 0)
    requires n <= 4 ==> n == 1 || n == 2 || n == 4
    requires if twice then b == 2 * n + 16 else 4 * n <= 16 && b == 16
    requires eightfold ==> c == 8 * n + 16
    ensures a + b + c - (26 * n + 22) >= if n == 1 then 4 else 2
  {
  }

  lemma SpareFrom32(n: nat, align: nat, a: nat, b: nat, c: nat, twice: bool, eightfold: bool)
    requires align >= 32 && n >= 1 && a >= 16 * n && a >= align && c >= 8 * n + 14
    requires if twice then b == 2 * n + align else 4 * n <= align && (2 * n + 8 <= align ==> b == align)
    requires if eightfold then c == 8 * n + align else 16 * n <= align && (8 * n + 14 <= align ==> c == align)
    ensures a + b + c - (26 * n + 22) >= align - 12
  {
  }

  lemma SmallVring(num: nat)
    requires RingSize(num)
    ensures num <= 4 ==> num == 1 || num == 2 || num == 4
  {
    var k: nat :| num == Pow2(k);
    if k >= 3 { Pow2Monotone(3, k); }
  }

  lemma PositiveMultiple(r: nat, a: nat)
    requires 0 < a && r % a == 0 && 0 < r
    ensures a <= r
  {
    DivMod(r, a);
    MulGrows(a, r / a);
  }

  /** A power of two from 16 on is 16 or at least 32. */
  lemma SparePow2(a: nat)
    requires IsPow2(a) && 16 <= a
    ensures a == 16 || 32 <= a
  {
    var j: nat :| a == Pow2(j);
    Pow2Values();
    if j < 4 { Pow2Monotone(j, 3); } else if j > 4 { Pow2Monotone(5, j); }
  }

  /** On every base that is aligned to words, as init leaves it, the used ring ends within VRING_SIZE:
      where it runs over `vring_size` it is not cleared (see `Reached`), but it never gets to what lies
      behind. Below an alignment of 16 any base will do. */
  lemma MacroCoversLayout(num: nat, p: nat, align: u32)
    requires RingSize(num) && RingAlign(align) && (p % 4 == 0 || align < 16)
    requires p + VringSizeMacro(num, align) <= U32
    ensures p + 18 * num + 4 < U32
    ensures VringInit(num, p, align).AvailEvent() + 4 <= p + VringSizeMacro(num, align)
  {
    hide AlignUp, VringSizeMacro, IsPow2;
    SpareBound(num, align);
    SmallAlign(align);
    UsedBelow(num, p, align);
  }

  lemma UsedBelow(num: nat, p: nat, align: u32)
    requires RingSize(num) && RingAlign(align) && (p % 4 == 0 || align < 16)
    requires p + 18 * num + 4 + align - 1 < U32
    ensures AlignUp(p + 18 * num + 4, align) <= p + 18 * num + 4 + align - 1
    ensures align >= 16 ==>
              AlignUp(p + 18 * num + 4, align) <= p + 18 * num + 4 + align - (if num == 1 then 2 else 4)
  {
    hide AlignUp;
    EvenSize(num);
    hide IsPow2;
    AlignUpIsLeast(p + 18 * num + 4, align);
    if align >= 16 {
      SlotIsEven(num, p);
      PaddingBelow(p + 18 * num + 4, align);
    }
  }

  lemma SlotIsEven(num: nat, p: nat)
    requires p % 4 == 0 && (num == 1 || num % 2 == 0)
    ensures (p + 18 * num + 4) % 2 == 0 && (num != 1 ==> (p + 18 * num + 4) % 4 == 0)
  {
    SlotParts(p / 4, num / 2);
    if num == 1 { assert p + 18 * num + 4 == 4 * (p / 4) + 22; } else { assert num == 2 * (num / 2); }
  }

  lemma SlotParts(u: nat, h: nat)
    ensures (4 * u + 22) % 2 == 0 && (4 * u + 36 * h + 4) % 2 == 0 && (4 * u + 36 * h + 4) % 4 == 0
  {
    DivModUnique(4 * u + 22, 2, 2 * u + 11, 0);
    DivModUnique(4 * u + 36 * h + 4, 2, 2 * u + 18 * h + 2, 0);
    DivModUnique(4 * u + 36 * h + 4, 4, u + 9 * h + 1, 0);
  }

  lemma EvenSize(num: nat)
    requires RingSize(num)
    ensures num == 1 || num % 2 == 0
  {
  }

  lemma SmallAlign(a: nat)
    requires IsPow2(a)
    ensures a < 16 ==> a <= 8
  {
    var j: nat :| a == Pow2(j);
    assert Pow2(3) == 8 && Pow2(4) == 16;
    if j >= 4 { Pow2Monotone(4, j); } else { Pow2Monotone(j, 3); }
  }

  /** The two vrings of one link, the second one VRING_SIZE behind the first, on the word-aligned base
      that init gives them: both lie, and are cleared, inside their own part of RL_VRING_OVERHEAD. */
  lemma TwoVringsFit(num: nat, p: nat, align: u32)
    requires RingSize(num) && RingAlign(align) && 0 < align && p % 4 == 0
    requires p + 2 * VringSizeMacro(num, align) <= U32
    ensures InsideOwnPart(num, p, align) && InsideOwnPart(num, p + VringSizeMacro(num, align), align)
    ensures p % align == 0 ==> (p + VringSizeMacro(num, align)) % align == 0
  {
    hide VringSizeMacro, IsPow2, AlignUp, InsideOwnPart, RingAlign;
    MacroIsWords(num, align);
    WordsLater(num, p, align);
    OnePartFits(num, p, align);
    OnePartFits(num, p + VringSizeMacro(num, align), align);
    if p % align == 0 { SumOfMultiples(p, VringSizeMacro(num, align), align); }
  }

  lemma WordsLater(num: nat, p: nat, align: u32)
    requires RingSize(num) && RingAlign(align) && 0 < align && p % 4 == 0
    ensures (p + VringSizeMacro(num, align)) % 4 == 0 || align < 16
  {
    hide VringSizeMacro, IsPow2;
    MacroIsWords(num, align);
    if align >= 16 { SumOfMultiples(p, VringSizeMacro(num, align), 4); }
  }

  /** The vring on p, and the bytes cleared for it, end within VRING_SIZE of p. */
  ghost predicate InsideOwnPart(num: nat, p: nat, align: u32) {
    && 0 < align && num <= 0x8000 && p + 18 * num + 4 < U32
    && p + VringSize(num, align) <= p + VringSizeMacro(num, align)
    && VringInit(num, p, align).AvailEvent() + 4 <= p + VringSizeMacro(num, align)
  }

  lemma OnePartFits(num: nat, p: nat, align: u32)
    requires RingSize(num) && RingAlign(align) && (p % 4 == 0 || align < 16)
    requires p + VringSizeMacro(num, align) <= U32
    ensures InsideOwnPart(num, p, align)
  {
    hide VringSizeMacro, VringSize, AlignUp, VringInit, IsPow2;
    MacroCoversVringSize(num, align);
    MacroCoversLayout(num, p, align);
  }

  lemma MacroIsWords(num: nat, align: u32)
    requires RingSize(num) && RingAlign(align)
    ensures 0 < align && VringSizeMacro(num, align) % align == 0
    ensures align >= 16 ==> VringSizeMacro(num, align) % 4 == 0
  {
    hide VringSizeMacro, VringSize, IsPow2;
    MacroCoversVringSize(num, align);
    if align >= 16 {
      var k := FourDivides(align);
      DivisorOfDivisor(VringSizeMacro(num, align), align, 4, k);
    }
  }
}
