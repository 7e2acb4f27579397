/** The arithmetic of the buffer pool that `rpmsg_lite_master_init` carves out of the shared memory:
    how many buffers it counts, where they lie, and when they stay inside the region.
 */
module Pool {
  import opened Words
  import opened VringLayout

  const WORD := 4  // RL_WORD_SIZE

  /** `RL_BUFFER_SIZE`: payload and header, rounded up to words. */
  function BufferSize(payloadSize: u32): (size: u32)
    requires payloadSize + 16 + WORD < U32
    ensures size % WORD == 0 && payloadSize + 16 <= size < payloadSize + 16 + WORD
  {
    WordIsPow2();
    AlignUpIsLeast(payloadSize + 16, WORD);
    AlignUp(payloadSize + 16, WORD)
  }

  /** `RL_CALCULATE_BUFFER_COUNT_DOWN_SAFE`. */
  function BufferCount(length: u32, overhead: u32, bufferSize: u32): nat
    requires 0 < bufferSize
  {
    if length < overhead then 0 else AlignDown(length - overhead, WORD) / bufferSize
  }

  /** `RL_WORD_ALIGN_UP(shmem_addr + RL_VRING_OVERHEAD)`, `sh_mem_base`. */
  function PoolBase(shmem: u32, overhead: u32): u32
    requires shmem + overhead < U32
  {
    AlignUp(shmem + overhead, WORD)
  }

  function BufferAddr(base: nat, bufferSize: nat, i: nat): nat {
    base + bufferSize * i
  }

  lemma WordIsPow2()
    ensures IsPow2(WORD)
  {
    Pow2Values();
  }

  /** The count is the number of whole buffers in the whole words behind the vrings; there is none in a
      region that does not hold the vrings. */
  lemma CountFits(length: u32, overhead: u32, bufferSize: u32, m: nat)
    requires 0 < bufferSize && 0 < m
    ensures m <= BufferCount(length, overhead, bufferSize)
            <==> overhead <= length && bufferSize * m <= (length - overhead) - (length - overhead) % WORD
  {
    if overhead <= length {
      var room := AlignDown(length - overhead, WORD);
      RoundsDown(length - overhead);
      DivMod(room, bufferSize);
      var q := room / bufferSize;
      MulGrows(bufferSize, m - q);
      assert bufferSize * (m - q) == bufferSize * m - bufferSize * q;
      if m <= q { MulMonotone(bufferSize, m, q); }
    }
  }

  /** So, as buffers are whole words, m of them are counted exactly when vrings and buffers together are
      not longer than the region. */
  lemma CountsWhatFits(length: u32, overhead: u32, bufferSize: u32, m: nat)
    requires 0 < bufferSize && bufferSize % WORD == 0 && 0 < m
    ensures m <= BufferCount(length, overhead, bufferSize) <==> overhead + bufferSize * m <= length
  {
    hide BufferCount;
    CountFits(length, overhead, bufferSize, m);
    Multiples(bufferSize, m);
    MulGrows(bufferSize, m);
    if overhead <= length { WholeWords(bufferSize * m, length - overhead); }
  }

  lemma WholeWords(used: nat, room: nat)
    requires used % WORD == 0
    ensures used <= room <==> used <= room - room % WORD
  {
  }

  lemma CountIsWord(length: u32, overhead: u32, bufferSize: u32)
    requires 0 < bufferSize
    ensures BufferCount(length, overhead, bufferSize) < U32
    ensures bufferSize * BufferCount(length, overhead, bufferSize) < U32
  {
    var m := BufferCount(length, overhead, bufferSize);
    if 0 < m {
      hide BufferCount;
      CountFits(length, overhead, bufferSize, m);
      MulGrows(m, bufferSize);
    }
  }

  lemma AddrStep(base: nat, bufferSize: nat, i: nat, j: nat)
    requires i < j
    ensures BufferAddr(base, bufferSize, i) + bufferSize <= BufferAddr(base, bufferSize, j)
  {
    MulMonotone(bufferSize, i + 1, j);
  }

  /** Buffers lie one behind the other: no two overlap. */
  lemma BuffersDisjoint(base: nat, bufferSize: nat, i: nat, j: nat)
    requires i != j
    ensures || BufferAddr(base, bufferSize, i) + bufferSize <= BufferAddr(base, bufferSize, j)
            || BufferAddr(base, bufferSize, j) + bufferSize <= BufferAddr(base, bufferSize, i)
  {
    if i < j { AddrStep(base, bufferSize, i, j); } else { AddrStep(base, bufferSize, j, i); }
  }

  /** A word-aligned base makes every buffer word aligned. */
  lemma BufferAligned(base: nat, bufferSize: nat, i: nat)
    requires base % WORD == 0 && bufferSize % WORD == 0
    ensures BufferAddr(base, bufferSize, i) % WORD == 0
  {
    DivMod(bufferSize, WORD);
    assert bufferSize * i == WORD * (bufferSize / WORD * i);
    ModAddMultiple(base, WORD, bufferSize / WORD * i);
  }

  /** The first m buffers end inside the region, starting at shmem, of the given length. */
  predicate Inside(shmem: nat, length: nat, base: nat, bufferSize: nat, m: nat) {
    BufferAddr(base, bufferSize, m) <= shmem + length
  }

  /** When the size check passes, the pool runs over the end of the region exactly when the buffers
      use up every whole word behind the vrings and rounding up the base of the pool costs more bytes
      than are left over. */
  lemma OverrunsExactlyWhen(shmem: u32, length: u32, overhead: u32, bufferSize: u32, m: nat)
    requires 0 < bufferSize && bufferSize % WORD == 0 && shmem + overhead + WORD < U32
    requires 0 < m <= BufferCount(length, overhead, bufferSize)
    ensures overhead <= length
    ensures !Inside(shmem, length, PoolBase(shmem, overhead), bufferSize, m)
            <==> && bufferSize * m == (length - overhead) - (length - overhead) % WORD
                 && Padding(shmem + overhead, WORD) > (length - overhead) % WORD
  {
    hide BufferCount;
    WordIsPow2();
    CountFits(length, overhead, bufferSize, m);
    AlignUpIsLeast(shmem + overhead, WORD);
    var room := length - overhead;
    Multiples(bufferSize, m);
    SpareWord(bufferSize * m, room - room % WORD, room, Padding(shmem + overhead, WORD));
  }

  lemma SpareWord(used: nat, words: nat, room: nat, padding: nat)
    requires used % WORD == 0 && words == room - room % WORD && used <= words && padding < WORD
    ensures used + padding > room <==> used == words && padding > room % WORD
  {
  }

  lemma RoundsDown(x: u32)
    ensures AlignDown(x, WORD) == x - x % WORD
  {
    Pow2Values();
    AlignDownOfPow2(x, 2, WORD);
  }

  lemma Multiples(f: nat, m: nat)
    requires f % WORD == 0
    ensures (f * m) % WORD == 0
  {
    BufferAligned(0, f, m);
  }

  /** With a word-aligned region and whole-word vrings the pool starts where the vrings end and stays
      inside the region. */
  lemma AlignedPoolFits(shmem: u32, length: u32, overhead: u32, bufferSize: u32, m: nat)
    requires 0 < bufferSize && bufferSize % WORD == 0 && shmem + overhead + WORD < U32
    requires 0 < m <= BufferCount(length, overhead, bufferSize)
    requires shmem % WORD == 0 && overhead % WORD == 0
    ensures PoolBase(shmem, overhead) == shmem + overhead
    ensures Inside(shmem, length, PoolBase(shmem, overhead), bufferSize, m)
  {
    hide BufferCount;
    WordIsPow2();
    SumOfMultiples(shmem, overhead, WORD);
    AlignUpIsLeast(shmem + overhead, WORD);
    LeastMultipleUnique(shmem + overhead, WORD, PoolBase(shmem, overhead), shmem + overhead);
    OverrunsExactlyWhen(shmem, length, overhead, bufferSize, m);
  }

  /** A region that is not word aligned can be overrun: one buffer each way with 16 bytes of payload,
      vrings aligned to 16, 192 bytes at address 1. The size check passes. */
  lemma UnalignedRegionOverruns()
    ensures BufferSize(16) == 32 && VringSizeMacro(1, 16) == 64
    ensures var overhead := 2 * VringSizeMacro(1, 16);
            2 <= BufferCount(192, overhead, 32) && !Inside(1, 192, PoolBase(1, overhead), 32, 2)
  {
    SmallestVring();
    RoundsDown(35);
    RoundsDown(64);
    WordIsPow2();
    AlignUpIsLeast(129, WORD);
    hide AlignUp, AlignDown;
  }

  lemma SmallestVring()
    ensures VringSizeMacro(1, 16) == 64
  {
    RoundUp16(16);
    RoundUp16(10);
    RoundUp16(22);
    hide AlignUp;
  }

  lemma RoundUp16(x: nat)
    requires x <= 32
    ensures AlignUp(x, 16) == x + 15 - (x + 15) % 16
  {
    hide AlignDown;
    Pow2Values();
    AlignDownOfPow2(x + 15, 4, 16);
  }

  /** With a word-aligned region and whole-word vrings, each of the m buffers is word aligned, lies
      behind the vrings and inside the region, and overlaps no other. */
  lemma PoolIsSound(shmem: u32, length: u32, overhead: u32, bufferSize: u32, m: nat, i: nat, j: nat)
    requires 0 < bufferSize && bufferSize % WORD == 0 && shmem + overhead + WORD < U32
    requires i < m && j < m && m <= BufferCount(length, overhead, bufferSize)
    requires shmem % WORD == 0 && overhead % WORD == 0
    ensures var a, b := BufferAddr(PoolBase(shmem, overhead), bufferSize, i),
                        BufferAddr(PoolBase(shmem, overhead), bufferSize, j);
            && a % WORD == 0 && shmem + overhead <= a && a + bufferSize <= shmem + length
            && (i != j ==> a + bufferSize <= b || b + bufferSize <= a)
  {
    hide BufferCount;
    AlignedPoolFits(shmem, length, overhead, bufferSize, m);
    SumOfMultiples(shmem, overhead, WORD);
    BufferAligned(shmem + overhead, bufferSize, i);
    AddrStep(shmem + overhead, bufferSize, i, m);
    MulMonotone(bufferSize, 0, i);
    if i != j { BuffersDisjoint(shmem + overhead, bufferSize, i, j); }
  }

  // ---- the parts of the region

  /** Where init puts the parts of the shared memory: the vrings one behind the other, then the pool. */
  datatype Region = Region(rvring: u32, tvring: u32, pool: u32)

  function Placed(shmem: u32, vringSize: u32): Region
    requires shmem + 2 * vringSize + WORD < U32
  {
    WordIsPow2();
    AlignUpIsLeast(shmem, WORD);
    Region(AlignUp(shmem, WORD), AlignUp(shmem, WORD) + vringSize, PoolBase(shmem, 2 * vringSize))
  }

  /** On any region, word aligned or not, and for any vring size of whole words that is not below that
      of the platform macro, each vring ends, and its cleared bytes end, before the next part begins. */
  lemma PartsApart(shmem: u32, vringSize: u32, num: nat, align: u32)
    requires RingSize(num) && RingAlign(align) && vringSize % WORD == 0
    requires VringSizeMacro(num, align) <= vringSize && shmem + 2 * vringSize + WORD < U32
    ensures var g := Placed(shmem, vringSize);
            && InsideOwnPart(num, g.rvring, align) && InsideOwnPart(num, g.tvring, align)
            && g.rvring + VringSizeMacro(num, align) <= g.tvring
            && g.tvring + VringSizeMacro(num, align) <= g.pool
            && g.rvring % WORD == 0 && shmem <= g.rvring < shmem + WORD
            && g.tvring == g.rvring + vringSize && g.pool == g.tvring + vringSize
  {
    hide VringSizeMacro, InsideOwnPart, IsPow2, AlignUp;
    WordIsPow2();
    AlignUpIsLeast(shmem, WORD);
    SumOfMultiples(vringSize, vringSize, WORD);
    SumOfMultiples(AlignUp(shmem, WORD), vringSize, WORD);
    WholeWordsBehind(shmem, 2 * vringSize);
    OnePartFits(num, AlignUp(shmem, WORD), align);
    OnePartFits(num, AlignUp(shmem, WORD) + vringSize, align);
  }

  /** How much of their used rings the master clears. */
  function RegionReach(shmem: u32, vringSize: u32, num: nat, align: u32): (Reach, Reach)
    requires RingSize(num) && RingAlign(align) && vringSize % WORD == 0
    requires VringSizeMacro(num, align) <= vringSize && shmem + 2 * vringSize + WORD < U32
  {
    PartsApart(shmem, vringSize, num, align);
    (Reached(num, Placed(shmem, vringSize).rvring, align), Reached(num, Placed(shmem, vringSize).tvring, align))
  }

  /** Whole words behind an address are rounded with it. */
  lemma WholeWordsBehind(x: u32, y: u32)
    requires x + y + WORD < U32 && y % WORD == 0
    ensures AlignUp(x + y, WORD) == AlignUp(x, WORD) + y
  {
    WordIsPow2();
    AlignUpOffset(y, x, WORD);
  }
}
