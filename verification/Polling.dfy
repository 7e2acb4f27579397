/** The time-out of a blocking send or allocation: how often it looks for a free buffer.

    The code counts the time waited in a 32-bit word, adding RL_MS_PER_INTERVAL after each look, and
    gives up when the count has reached the time-out.
 */
module Polling {
  import opened Words

  /** The count after k intervals. */
  function Tick(k: nat, interval: nat): u32 {
    (k * interval) % U32
  }

  /** The loop gives up after its k-th look, if that finds nothing. */
  predicate GivesUp(k: nat, interval: u32, timeout: u32) {
    Tick(k, interval) >= timeout
  }

  /** A call that gives up does so after this many looks: one if it may not wait, and else one and
      then as many as it takes the count to reach the time-out for the first time. */
  ghost predicate LastLook(looks: nat, interval: u32, timeout: u32) {
    if timeout == 0 then looks == 1
    else
      && 2 <= looks && GivesUp(looks - 1, interval, timeout)
      && forall k | 1 <= k < looks - 1 :: !GivesUp(k, interval, timeout)
  }

  /** Intervals in the time-out, rounded up. */
  function Intervals(timeout: nat, interval: nat): nat
    requires 0 < interval
  {
    (timeout + interval - 1) / interval
  }

  lemma IntervalsBounds(timeout: nat, interval: nat, k: nat)
    requires 0 < interval
    ensures k < Intervals(timeout, interval) <==> k * interval < timeout
  {
    var n := Intervals(timeout, interval);
    DivMod(timeout + interval - 1, interval);
    if k < n {
      MulGrows(interval, n - 1 - k);
      assert interval * (n - 1 - k) == interval * n - interval - k * interval;
    } else {
      MulGrows(interval, k - n);
      assert interval * (k - n) == k * interval - interval * n;
    }
  }

  /** Until the word wraps, the loop gives up exactly when it has slept for the time-out. */
  lemma TickBefore(k: nat, interval: u32, timeout: u32)
    requires 0 < interval && k * interval < U32
    ensures GivesUp(k, interval, timeout) <==> timeout <= k * interval
    ensures GivesUp(k, interval, timeout) <==> Intervals(timeout, interval) <= k
  {
    IntervalsBounds(timeout, interval, k);
  }

  /** A call that gives up has made at most one look at the start and one per interval in its
      time-out, and then exactly so many, if and only if the count does not wrap before: the interval
      in which the time-out ends must end before 2^32. */
  lemma AttemptBound(looks: nat, interval: u32, timeout: u32)
    requires 0 < interval && LastLook(looks, interval, timeout)
    ensures var n := Intervals(timeout, interval);
            && (looks <= 1 + n <==> n * interval < U32)
            && (n * interval < U32 ==> looks == 1 + n)
  {
    var n := Intervals(timeout, interval);
    IntervalsBounds(timeout, interval, 0);
    if timeout > 0 {
      if n * interval < U32 {
        NotEarlier(looks, interval, timeout);
      } else if looks - 1 <= n {
        WrappedTick(looks - 1, interval, timeout);
        assert false;
      }
    }
  }

  lemma NotEarlier(looks: nat, interval: u32, timeout: u32)
    requires 0 < interval && 0 < timeout && LastLook(looks, interval, timeout)
    requires Intervals(timeout, interval) * interval < U32
    ensures looks == 1 + Intervals(timeout, interval)
  {
    var n := Intervals(timeout, interval);
    IntervalsBounds(timeout, interval, 0);
    TickBefore(n, interval, timeout);
    assert GivesUp(n, interval, timeout);
    if looks - 1 < n {
      MulMonotone(interval, looks - 1, n);
      TickBefore(looks - 1, interval, timeout);
    }
  }

  lemma WrappedTick(k: nat, interval: u32, timeout: u32)
    requires 0 < interval && 1 <= k <= Intervals(timeout, interval)
    requires Intervals(timeout, interval) * interval >= U32
    ensures !GivesUp(k, interval, timeout)
  {
    var n := Intervals(timeout, interval);
    IntervalsBounds(timeout, interval, k);
    IntervalsBounds(timeout, interval, k - 1);
    IntervalsBounds(timeout, interval, n);
    var t := k * interval;
    assert (k - 1) * interval == t - interval;
    if k == n {
      DivModUnique(t, U32, 1, t - U32);
    } else {
      DivModUnique(t, U32, 0, t);
    }
  }

  // ---- whether a call that finds no buffer ever ends

  /** The largest power of two, up to 2^32, that divides the interval; in C `interval & -interval`,
      and 2^32 for no interval at all. */
  function Granule(interval: u32): (g: nat)
    ensures 1 <= g <= U32 && (0 < interval ==> g <= interval)
  {
    if interval == 0 then U32 else if interval % 2 == 1 then 1 else 2 * Granule(interval / 2)
  }

  /** What a caller has to check: the time-out is at least one granule below 2^32. */
  predicate Ends(interval: u32, timeout: u32) {
    timeout <= U32 - Granule(interval)
  }

  lemma {:induction false} GranuleParts(x: u32, w: nat) returns (j: nat, o: nat)
    requires 0 < x < Pow2(w)
    ensures j < w && o % 2 == 1 && Granule(x) == Pow2(j) && x == Pow2(j) * o
    decreases x
  {
    if x % 2 == 1 {
      j, o := 0, x;
    } else {
      j, o := GranuleParts(x / 2, w - 1);
      assert 2 * (Pow2(j) * o) == (2 * Pow2(j)) * o;
      j := j + 1;
    }
  }

  /** Adding 2^w times an odd number flips the next bit. */
  lemma FlipBit(x: nat, o: nat, p: nat)
    requires 0 < p && o % 2 == 1
    ensures (x + p * o) % (2 * p) == if x % (2 * p) < p then x % (2 * p) + p else x % (2 * p) - p
  {
    var r, q, h := x % (2 * p), x / (2 * p), o / 2;
    DivMod(x, 2 * p);
    assert p * o == (2 * p) * h + p;
    assert x + p * o == (2 * p) * (q + h) + (r + p) by {
      assert (2 * p) * (q + h) == (2 * p) * q + (2 * p) * h;
    }
    if r < p {
      DivModUnique(x + p * o, 2 * p, q + h, r + p);
    } else {
      assert (2 * p) * (q + h + 1) == (2 * p) * (q + h) + 2 * p;
      DivModUnique(x + p * o, 2 * p, q + h + 1, r - p);
    }
  }

  lemma LowerBits(x: nat, p: nat, r: nat)
    requires 0 < p && r < 2 * p && x % p == r % p
    ensures x % (2 * p) == r || x % (2 * p) == (if r < p then r + p else r - p)
  {
    DivMod(x, 2 * p);
    var y, q := x % (2 * p), x / (2 * p);
    assert x == y + p * (2 * q) by { assert (2 * p) * q == p * (2 * q); }
    ModAddMultiple(y, p, 2 * q);
    SmallMod(y, p);
    SmallMod(r, p);
  }

  lemma SmallMod(y: nat, p: nat)
    requires 0 < p && y < 2 * p
    ensures y % p == if y < p then y else y - p
  {
    if y < p { DivModUnique(y, p, 0, y); } else { DivModUnique(y, p, 1, y - p); }
  }

  /** The multiples of an odd number take every value modulo 2^w. */
  lemma {:induction false} OddReaches(o: nat, w: nat, r: nat) returns (k: nat)
    requires o % 2 == 1 && r < Pow2(w)
    ensures (k * o) % Pow2(w) == r
    decreases w
  {
    if w == 0 {
      k := 0;
    } else {
      var p := Pow2(w - 1);
      DivMod(r, p);
      k := OddReaches(o, w - 1, r % p);
      LowerBits(k * o, p, r);
      if (k * o) % (2 * p) != r {
        FlipBit(k * o, o, p);
        assert (k + p) * o == k * o + p * o;
        k := k + p;
      }
    }
  }

  /** Scaling a remainder. */
  lemma ScaledMod(y: nat, g: nat, c: nat)
    requires 0 < g && 0 < c
    ensures 0 < g * c && (g * y) % (g * c) == g * (y % c)
  {
    DivMod(y, c);
    MulGrows(g, c);
    MulGrows(g, c - y % c);
    assert g * (c - y % c) == g * c - g * (y % c);
    assert g * (c * (y / c) + y % c) == (g * c) * (y / c) + g * (y % c);
    DivModUnique(g * y, g * c, y / c, g * (y % c));
  }

  lemma TickScaled(k: nat, interval: u32, j: nat, o: nat)
    requires j < 32 && interval == Pow2(j) * o
    ensures Pow2(j) * Pow2(32 - j) == U32 && Tick(k, interval) == Pow2(j) * ((k * o) % Pow2(32 - j))
  {
    Pow2Values();
    Pow2Add(j, 32 - j);
    Swap(k, Pow2(j), o);
    ScaledMod(k * o, Pow2(j), Pow2(32 - j));
  }

  lemma Swap(k: nat, g: nat, o: nat)
    ensures k * (g * o) == g * (k * o)
  {
  }

  /** All counts are multiples of the granule. */
  lemma TickIsGranular(k: nat, interval: u32)
    ensures Tick(k, interval) <= U32 - Granule(interval)
  {
    if interval > 0 {
      Pow2Values();
      var j, o := GranuleParts(interval, 32);
      TickScaled(k, interval, j, o);
      Granular(Pow2(j), (k * o) % Pow2(32 - j), Pow2(32 - j));
    }
  }

  lemma Granular(g: nat, x: nat, c: nat)
    requires x < c
    ensures g * x <= g * c - g && (x == c - 1 ==> g * x == g * c - g)
  {
    MulMonotone(g, x, c - 1);
    assert g * (c - 1) == g * c - g;
  }

  /** The count comes to the last multiple of the granule below 2^32. */
  lemma LastTick(interval: u32) returns (k: nat)
    requires 0 < interval
    ensures Tick(k, interval) == U32 - Granule(interval)
  {
    Pow2Values();
    var j, o := GranuleParts(interval, 32);
    k := OddReaches(o, 32 - j, Pow2(32 - j) - 1);
    TickScaled(k, interval, j, o);
    Granular(Pow2(j), (k * o) % Pow2(32 - j), Pow2(32 - j));
  }

  /** A call on a ring that stays empty ends if and only if its time-out is at least one granule below
      2^32; otherwise the count passes over the time-out each time round. */
  lemma EndsExactlyWhen(interval: u32, timeout: u32)
    ensures (exists k: nat :: 1 <= k && GivesUp(k, interval, timeout)) <==> Ends(interval, timeout)
  {
    if Ends(interval, timeout) {
      var k := SomeLook(interval, timeout);
    } else {
      forall k: nat | 1 <= k ensures !GivesUp(k, interval, timeout) {
        TickIsGranular(k, interval);
      }
    }
  }

  lemma SomeLook(interval: u32, timeout: u32) returns (k: nat)
    requires Ends(interval, timeout)
    ensures 1 <= k && GivesUp(k, interval, timeout)
  {
    if timeout == 0 {
      k := 1;
    } else {
      k := LastTick(interval);
      assert Tick(0, interval) == 0;
    }
  }

  /** With the default interval of one the count never wraps before the time-out, and every call ends. */
  lemma DefaultInterval(timeout: u32)
    ensures Intervals(timeout, 1) * 1 < U32 && Ends(1, timeout)
  {
    assert Granule(1) == 1;
  }

  /** RL_BLOCK with an interval of two milliseconds: the call never gives up. */
  lemma BlockNeverEnds()
    ensures !Ends(2, 0xFFFF_FFFF) && forall k: nat | 1 <= k :: !GivesUp(k, 2, 0xFFFF_FFFF)
  {
    EndsExactlyWhen(2, 0xFFFF_FFFF);
    assert Granule(2) == 2;
  }

  /** RL_BLOCK with seven: it ends, but not before the count has wrapped. */
  lemma BlockEndsLate() returns (looks: nat)
    ensures LastLook(looks, 7, 0xFFFF_FFFF) && looks > 1 + Intervals(0xFFFF_FFFF, 7)
  {
    assert Granule(7) == 1;
    var limit := SomeLook(7, 0xFFFF_FFFF);
    looks := FirstLook(7, 0xFFFF_FFFF, 1, limit);
    AttemptBound(looks, 7, 0xFFFF_FFFF);
  }

  lemma {:induction false} FirstLook(interval: u32, timeout: u32, k: nat, limit: nat) returns (looks: nat)
    requires 0 < timeout && 1 <= k <= limit && GivesUp(limit, interval, timeout)
    requires forall i | 1 <= i < k :: !GivesUp(i, interval, timeout)
    ensures LastLook(looks, interval, timeout)
    decreases limit - k
  {
    if GivesUp(k, interval, timeout) {
      looks := k + 1;
    } else {
      looks := FirstLook(interval, timeout, k + 1, limit);
    }
  }
}
