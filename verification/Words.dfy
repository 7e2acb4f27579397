/** Fixed-width words, powers of two, bit masks and alignment.

    The C code masks free-running indexes with `idx & (n - 1)`, rounds sizes with
    `(x + a - 1) & ~(a - 1)` and tests powers of two with `n & (n - 1)`.  Here `&` is defined bit
    by bit, and the lemmas say what these idioms compute.
 */
module Words {

  const U16 := 0x1_0000
  const U32 := 0x1_0000_0000

  type u8 = x: int | 0 <= x < 0x100
  type u16 = x: int | 0 <= x < 0x1_0000
  type u32 = x: int | 0 <= x < 0x1_0000_0000

  function Pow2(k: nat): (p: nat)
    ensures 1 <= p
  {
    if k == 0 then 1 else 2 * Pow2(k - 1)
  }

  ghost predicate IsPow2(n: int) {
    exists k: nat :: n == Pow2(k)
  }

  /** The `&` operator on non-negative integers, lowest bit last. */
  function BitAnd(x: nat, y: nat): (r: nat)
    ensures r <= x && r <= y
  {
    if x == 0 || y == 0 then 0
    else 2 * BitAnd(x / 2, y / 2) + (if x % 2 == 1 && y % 2 == 1 then 1 else 0)
  }

  // ---- arithmetic of division by a variable

  lemma DivMod(x: int, n: int)
    requires 0 < n
    ensures x == n * (x / n) + x % n && 0 <= x % n < n
  {
  }

  /** A multiple is either zero or at least as large as its factor. */
  lemma MulGrows(n: int, d: int)
    requires 0 < n
    ensures d >= 1 ==> n * d >= n
    ensures d <= -1 ==> n * d <= -n
  {
  }

  lemma MulMonotone(f: nat, i: nat, j: nat)
    requires i <= j
    ensures f * i <= f * j
  {
    assert f * j == f * i + f * (j - i);
  }

  /** The quotient and remainder are the only ones there are. */
  lemma DivModUnique(x: int, n: int, q: int, r: int)
    requires 0 < n && x == n * q + r && 0 <= r < n
    ensures x / n == q && x % n == r
  {
    DivMod(x, n);
    MulGrows(n, x / n - q);
    assert n * (x / n - q) == n * (x / n) - n * q;
  }

  lemma MulMod(n: int, q: int)
    requires 0 < n
    ensures (n * q) % n == 0
  {
    DivModUnique(n * q, n, q, 0);
  }

  lemma ModAddMultiple(x: int, n: int, q: int)
    requires 0 < n
    ensures (x + n * q) % n == x % n
  {
    DivMod(x, n);
    assert x + n * q == n * (x / n + q) + x % n;
    DivModUnique(x + n * q, n, x / n + q, x % n);
  }

  /** A number and another less than n above it fall on the same residue only if they are equal. */
  lemma ModDistinct(j: nat, k: nat, n: nat)
    requires 0 < n && k <= j < k + n && j % n == k % n
    ensures j == k
  {
    DivMod(j, n);
    DivMod(k, n);
    assert j - k == n * (j / n - k / n);
    MulGrows(n, j / n - k / n);
  }

  // ---- powers of two

  lemma {:induction false} Pow2Add(j: nat, k: nat)
    ensures Pow2(j + k) == Pow2(j) * Pow2(k)
  {
    if j != 0 {
      Pow2Add(j - 1, k);
      calc {
        Pow2(j + k);
        2 * Pow2(j - 1 + k);
        2 * (Pow2(j - 1) * Pow2(k));
        (2 * Pow2(j - 1)) * Pow2(k);
      }
    }
  }

  lemma {:induction false} Pow2Monotone(j: nat, k: nat)
    requires j <= k
    ensures Pow2(j) <= Pow2(k)
    decreases k
  {
    if j < k { Pow2Monotone(j, k - 1); }
  }

  lemma Pow2Values()
    ensures Pow2(2) == 4 && Pow2(4) == 16 && Pow2(15) == 0x8000 && Pow2(16) == U16
    ensures Pow2(31) == 0x8000_0000 && Pow2(32) == U32
  {
    assert Pow2(4) == 16;
    Pow2Add(4, 4);
    Pow2Add(8, 8);
    Pow2Add(16, 16);
    assert Pow2(16) == 2 * Pow2(15);
    assert Pow2(32) == 2 * Pow2(31);
  }

  /** Of two powers of two, the smaller divides the larger. */
  lemma Pow2Divides(a: nat, b: nat) returns (q: nat)
    requires IsPow2(a) && IsPow2(b) && a <= b
    ensures 1 <= q && b == a * q
  {
    var j: nat :| a == Pow2(j);
    var k: nat :| b == Pow2(k);
    if j <= k {
      Pow2Add(j, k - j);
      q := Pow2(k - j);
    } else {
      Pow2Monotone(k, j);
      q := 1;
    }
  }

  /** `n & (n - 1)` is zero exactly on powers of two (and on zero). */
  lemma {:induction false} Pow2Test(n: nat)
    requires 0 < n
    ensures BitAnd(n, n - 1) == 0 <==> IsPow2(n)
  {
    if n == 1 {
      assert n == Pow2(0);
    } else {
      Pow2Test(n / 2);
      if n % 2 == 1 {
        assert BitAnd(n, n - 1) == 2 * BitAnd(n / 2, n / 2);
        AndSelf(n / 2);
        forall k: nat ensures n != Pow2(k) {
          OddIsNotPow2(n, k);
        }
      } else {
        assert (n - 1) / 2 == n / 2 - 1;
        assert BitAnd(n, n - 1) == 2 * BitAnd(n / 2, n / 2 - 1);
        if IsPow2(n / 2) {
          var k: nat :| n / 2 == Pow2(k);
          assert n == Pow2(k + 1);
        }
        if IsPow2(n) {
          var k: nat :| n == Pow2(k);
          assert n / 2 == Pow2(k - 1);
        }
      }
    }
  }

  lemma OddIsNotPow2(n: nat, k: nat)
    requires 1 < n && n % 2 == 1
    ensures n != Pow2(k)
  {
    if k != 0 { assert Pow2(k) % 2 == 0; }
  }

  lemma {:induction false} AndSelf(x: nat)
    ensures BitAnd(x, x) == x
  {
    if x != 0 { AndSelf(x / 2); }
  }

  // ---- masks

  lemma ModDouble(x: nat, h: nat)
    requires 0 < h
    ensures x % (2 * h) == 2 * ((x / 2) % h) + x % 2
  {
    var y := x / 2;
    DivMod(y, h);
    var q, r := y / h, 2 * (y % h) + x % 2;
    assert x == (2 * h) * q + r by {
      assert (2 * h) * q == 2 * (h * q);
    }
    DivModUnique(x, 2 * h, q, r);
  }

  lemma MaskStep(x: nat, h: nat)
    requires 0 < h && BitAnd(x / 2, h - 1) == (x / 2) % h
    ensures BitAnd(x, 2 * h - 1) == x % (2 * h)
  {
    hide BitAnd;
    AndOneMore(x, h - 1);
    ModDouble(x, h);
  }

  lemma ZeroMasks(x: nat, n: nat)
    requires 0 < n && (x == 0 || n == 1)
    ensures BitAnd(x, n - 1) == x % n
  {
    DivModUnique(x, n, x, 0);
  }

  /** Masking with 2^k - 1 keeps the remainder modulo 2^k. */
  lemma {:induction false} MaskIsMod(x: nat, k: nat)
    ensures BitAnd(x, Pow2(k) - 1) == x % Pow2(k)
  {
    hide BitAnd;
    if k == 0 || x == 0 {
      ZeroMasks(x, Pow2(k));
    } else {
      MaskIsMod(x / 2, k - 1);
      MaskStep(x, Pow2(k - 1));
    }
  }

  lemma AndAllOnes(x: nat, w: nat)
    requires x < Pow2(w)
    ensures BitAnd(x, Pow2(w) - 1) == x
  {
    MaskIsMod(x, w);
    DivModUnique(x, Pow2(w), 0, x);
  }

  /** One more bit on two complementary masks. */
  lemma AndOneMore(x: nat, m: nat)
    ensures BitAnd(x, 2 * m) == 2 * BitAnd(x / 2, m)
    ensures BitAnd(x, 2 * m + 1) == 2 * BitAnd(x / 2, m) + x % 2
  {
    assert (2 * m) / 2 == m && (2 * m) % 2 == 0;
    assert (2 * m + 1) / 2 == m && (2 * m + 1) % 2 == 1;
  }

  lemma SplitLift(x: nat, h: nat, g: nat, high: nat, low: nat)
    requires 0 < h <= g && BitAnd(x / 2, g - h) + BitAnd(x / 2, h - 1) == x / 2
    requires high == 2 * (g - h) && low == 2 * (h - 1) + 1
    ensures BitAnd(x, high) + BitAnd(x, low) == x
  {
    hide BitAnd;
    AndOneMore(x, g - h);
    AndOneMore(x, h - 1);
    Halves(x);
  }

  /** The low k of w bits (p = 2^k, q = 2^w) and the others make up the number. */
  lemma Halves(x: nat)
    ensures 2 * (x / 2) + x % 2 == x
  {
  }

  lemma {:induction false} MasksSplit(x: nat, k: nat, w: nat, p: nat, q: nat)
    requires k <= w && p == Pow2(k) && q == Pow2(w) && x < q
    ensures p <= q && BitAnd(x, q - p) + BitAnd(x, p - 1) == x
    decreases k
  {
    hide BitAnd;
    Pow2Monotone(k, w);
    if k == 0 {
      SplitBase(x, w);
    } else {
      var h, g := Pow2(k - 1), Pow2(w - 1);
      Halves(x);
      assert p == 2 * h && q == 2 * g;
      hide Pow2;
      MasksSplit(x / 2, k - 1, w - 1, h, g);
      SplitLift(x, h, g, q - p, p - 1);
    }
  }

  lemma SplitBase(x: nat, w: nat)
    requires x < Pow2(w)
    ensures BitAnd(x, Pow2(w) - Pow2(0)) + BitAnd(x, Pow2(0) - 1) == x
  {
    AndAllOnes(x, w);
  }

  /** Clearing the low k of w bits rounds down to a multiple of 2^k. */
  lemma ClearIsRoundDown(x: nat, k: nat, w: nat)
    requires k <= w && x < Pow2(w)
    ensures Pow2(k) <= Pow2(w) && BitAnd(x, Pow2(w) - Pow2(k)) == x - x % Pow2(k)
  {
    MasksSplit(x, k, w, Pow2(k), Pow2(w));
    MaskIsMod(x, k);
  }

  // ---- ring sizes: the powers of two up to RL_MAX_BUFFER_COUNT

  ghost predicate RingSize(n: int) {
    IsPow2(n) && n <= 0x8000
  }

  /** The slot the code computes from a 16-bit index. */
  function Masked(idx: u16, n: nat): (pos: nat)
    requires 0 < n
    ensures pos < n
  {
    BitAnd(idx, n - 1)
  }

  /** The masked 16-bit index is the unbounded counter modulo the ring size. */
  lemma MaskedCounter(c: nat, n: nat)
    requires RingSize(n)
    ensures 0 < n && Masked(c % U16, n) == c % n
  {
    var k: nat :| n == Pow2(k);
    MaskIsMod(c % U16, k);
    ModOfWrapped(c, n);
  }

  lemma ModOfWrapped(c: nat, n: nat)
    requires RingSize(n)
    ensures 0 < n && (c % U16) % n == c % n
  {
    Pow2Values();
    assert IsPow2(U16);
    var q := Pow2Divides(n, U16);
    var d := c / U16;
    ModAddMultiple(c % U16, n, q * d);
    assert n * (q * d) == (n * q) * d;
    assert c % U16 + U16 * d == c;
  }

  /** `x++` on a 16-bit variable. */
  function Inc16(x: u16): u16 {
    (x + 1) % U16
  }

  lemma SmallWord(x: nat)
    ensures x < U16 ==> x % U16 == x
  {
  }

  /** Incrementing the 16-bit image is incrementing the counter. */
  lemma WrapSucc(c: nat)
    ensures (c % U16 + 1) % U16 == (c + 1) % U16
  {
  }

  /** Two counters less than 2^16 apart have equal 16-bit images only if they are equal. */
  lemma WrappedEqual(c: nat, d: nat)
    requires d <= c < d + U16
    ensures c % U16 == d % U16 <==> c == d
  {
  }

  // ---- alignment, as the macros write it

  /** `x & ~(a - 1)` on 32-bit words. */
  function AlignDown(x: u32, a: u32): (r: u32)
    requires 0 < a
  {
    BitAnd(x, U32 - a)
  }

  /** `(x + a - 1) & ~(a - 1)` on 32-bit words. */
  function AlignUp(x: u32, a: u32): (r: u32)
    requires 0 < a
  {
    AlignDown((x + a - 1) % U32, a)
  }

  lemma AlignDownIsGreatest(x: u32, a: u32)
    requires IsPow2(a)
    ensures 0 < a && AlignDown(x, a) % a == 0 && x - a < AlignDown(x, a) <= x
  {
    var k: nat :| a == Pow2(k);
    AlignDownOfPow2(x, k, a);
    RoundDownIsMultiple(x, a);
  }

  lemma AlignDownOfPow2(x: u32, k: nat, a: u32)
    requires a == Pow2(k)
    ensures AlignDown(x, a) == x - x % a
  {
    Pow2Values();
    if k > 32 { Pow2Monotone(32, k); }
    ClearIsRoundDown(x, k, 32);
  }

  lemma RoundDownIsMultiple(x: nat, a: nat)
    requires 0 < a
    ensures (x - x % a) % a == 0 && x - a < x - x % a <= x
  {
    DivMod(x, a);
    MulMod(a, x / a);
  }

  /** When nothing overflows, rounding up gives the least multiple that is not smaller. */
  lemma AlignUpIsLeast(x: u32, a: u32)
    requires IsPow2(a) && x + a - 1 < U32
    ensures 0 < a && AlignUp(x, a) % a == 0 && x <= AlignUp(x, a) < x + a
  {
    assert (x + a - 1) % U32 == x + a - 1;
    AlignDownIsGreatest(x + a - 1, a);
  }

  /** The least multiple is determined by its bounds. */
  lemma LeastMultipleUnique(x: int, a: int, r: int, s: int)
    requires 0 < a && r % a == 0 && s % a == 0 && x <= r < x + a && x <= s < x + a
    ensures r == s
  {
    DivMod(r, a);
    DivMod(s, a);
    assert r - s == a * (r / a - s / a);
    MulGrows(a, r / a - s / a);
  }

  /** A multiple of a that is not below x is not below the rounding of x. */
  lemma MultipleAbove(x: int, a: int, r: int, s: int)
    requires 0 < a && r % a == 0 && s % a == 0 && r < x + a && x <= s
    ensures r <= s
  {
    DivMod(r, a);
    DivMod(s, a);
    assert r - s == a * (r / a - s / a);
    MulGrows(a, r / a - s / a);
  }

  lemma SumOfMultiples(r: int, s: int, a: int)
    requires 0 < a && r % a == 0 && s % a == 0
    ensures (r + s) % a == 0
  {
    DivMod(r, a);
    DivMod(s, a);
    assert r + s == a * (r / a + s / a);
    MulMod(a, r / a + s / a);
  }
}
