/** Unsigned 16-bit words and the C bitwise operators `&` and `|` on them.
 *
 * The attribute words of a sprite are `unsigned short`; the game writes them
 * with masks and `|`.  `And` and `Or` below are those operators on
 * non-negative integers, defined one bit at a time, and the lemmas connect
 * them with the arithmetic view (`% Pow2(k)`, `/ Pow2(k)`) that the sprite
 * field properties are stated in.
 */
module Bits {

  /** An `unsigned short`. */
  type Word = w: int | 0 <= w < 0x1_0000

  /** The low 16 bits of a two's-complement integer: C's conversion of an
      `int` to `unsigned short`.  For a mask below 0x10000, `v & mask` on an
      `int` equals `Low16(v) & mask`. */
  function Low16(v: int): Word {
    v % 0x1_0000
  }

  /** Storing into an `unsigned short` keeps a value that fits and otherwise
      differs from the `int` by a multiple of 2^16. */
  lemma Low16Stores(v: int)
    ensures 0 <= v < 0x1_0000 ==> Low16(v) == v
    ensures (v - Low16(v)) % 0x1_0000 == 0
  {
  }

  function Pow2(k: nat): (r: nat)
    ensures r > 0
  {
    if k == 0 then 1 else 2 * Pow2(k - 1)
  }

  /** C's `a & b` on non-negative integers, one bit at a time. */
  function And(a: nat, b: nat): nat
    decreases a
  {
    if a == 0 || b == 0 then 0
    else 2 * And(a / 2, b / 2) + (if a % 2 == 1 && b % 2 == 1 then 1 else 0)
  }

  /** C's `a | b` on non-negative integers, one bit at a time. */
  function Or(a: nat, b: nat): nat
    decreases a + b
  {
    if a == 0 then b
    else if b == 0 then a
    else 2 * Or(a / 2, b / 2) + (if a % 2 == 1 || b % 2 == 1 then 1 else 0)
  }

  /** Bit `i` of `w`, that is `(w >> i) & 1`: halve `i` times, then look at
      the lowest bit. */
  predicate Bit(w: nat, i: nat)
    decreases i
  {
    if i == 0 then w % 2 == 1 else Bit(w / 2, i - 1)
  }

  /** The same bit read by one division: `(w / 2^i) % 2`. */
  lemma {:induction false} BitDiv(w: nat, i: nat)
    ensures Bit(w, i) == ((w / Pow2(i)) % 2 == 1)
    decreases i
  {
    if i > 0 {
      BitDiv(w / 2, i - 1);
      DivHalf(w, Pow2(i - 1));
    }
  }

  /** `BitDiv` with the power of two given by value. */
  lemma BitValue(w: nat, i: nat, p: nat)
    requires p == Pow2(i)
    ensures Bit(w, i) == ((w / p) % 2 == 1)
  {
    BitDiv(w, i);
  }

  lemma DivUnique(a: int, d: int, q: int, r: int)
    requires d > 0 && 0 <= r < d && a == q * d + r
    ensures a / d == q && a % d == r
  {
    var k := a / d - q;
    assert k * d == r - a % d by {
      assert a == (a / d) * d + a % d;
      assert (a / d) * d - q * d == (a / d - q) * d;
    }
    if k > 0 {
      MulAtLeast(k, d);
    } else if k < 0 {
      MulAtLeast(-k, d);
    }
  }

  lemma MulAtLeast(k: int, d: int)
    requires k >= 1 && d > 0
    ensures k * d >= d
  {
    assert k * d == (k - 1) * d + d;
    assert (k - 1) * d >= 0;
  }

  lemma DivDiv(a: nat, m: nat, n: nat)
    requires m > 0 && n > 0
    ensures m * n > 0 && a / (m * n) == (a / m) / n
  {
    MulAtLeast(n, m);
    var q, r1, r2 := (a / m) / n, a % m, (a / m) % n;
    assert a == (a / m) * m + r1;
    assert a / m == q * n + r2;
    assert a == q * (m * n) + (r2 * m + r1) by {
      assert (q * n + r2) * m == q * (m * n) + r2 * m;
    }
    assert r2 * m + r1 < m * n by {
      MulAtLeast(n - r2, m);
      assert (n - r2) * m == n * m - r2 * m;
    }
    DivUnique(a, m * n, q, r2 * m + r1);
  }

  /** Words that agree above bit `k` agree above any higher bit. */
  lemma SameAbove(a: nat, b: nat, p: nat, q: nat)
    requires p > 0 && q > 0 && a / p == b / p
    ensures a / (p * q) == b / (p * q)
  {
    DivDiv(a, p, q);
    DivDiv(b, p, q);
  }

  /** Words that agree above bit `k` have the same bits from `k` up. */
  lemma SameBitAbove(a: nat, b: nat, k: nat, i: nat)
    requires k <= i && a / Pow2(k) == b / Pow2(k)
    ensures Bit(a, i) == Bit(b, i)
  {
    BitDiv(a, i);
    BitDiv(b, i);
    Pow2Split(k, i);
    DivDiv(a, Pow2(k), Pow2(i - k));
    DivDiv(b, Pow2(k), Pow2(i - k));
  }

  lemma DivHalf(a: nat, m: nat)
    requires m > 0
    ensures a / (2 * m) == (a / 2) / m
    ensures a % (2 * m) == 2 * ((a / 2) % m) + a % 2
  {
    var q, r2 := (a / 2) / m, (a / 2) % m;
    assert a / 2 == q * m + r2;
    assert a == q * (2 * m) + (2 * r2 + a % 2);
    DivUnique(a, 2 * m, q, 2 * r2 + a % 2);
  }

  lemma BitShift(a: nat, i: nat)
    ensures Bit(a, i + 1) == Bit(a / 2, i)
  {
  }

  lemma {:induction false} BitAnd(a: nat, b: nat, i: nat)
    ensures Bit(And(a, b), i) == (Bit(a, i) && Bit(b, i))
    decreases i
  {
    if a == 0 || b == 0 {
      NoBitOfZero(i);
    } else {
      AndHalf(a, b);
      if i > 0 {
        BitAnd(a / 2, b / 2, i - 1);
      }
    }
  }

  /** The lowest bit of `a & b` and the rest of it, shifted down. */
  lemma AndHalf(a: nat, b: nat)
    requires a > 0 && b > 0
    ensures And(a, b) / 2 == And(a / 2, b / 2)
    ensures (And(a, b) % 2 == 1) == (a % 2 == 1 && b % 2 == 1)
  {
    var low := if a % 2 == 1 && b % 2 == 1 then 1 else 0;
    DivUnique(And(a, b), 2, And(a / 2, b / 2), low);
  }

  lemma {:induction false} BitOr(a: nat, b: nat, i: nat)
    ensures Bit(Or(a, b), i) == (Bit(a, i) || Bit(b, i))
    decreases i
  {
    if a == 0 || b == 0 {
      NoBitOfZero(i);
    } else {
      OrHalf(a, b);
      if i > 0 {
        BitOr(a / 2, b / 2, i - 1);
      }
    }
  }

  /** The lowest bit of `a | b` and the rest of it, shifted down. */
  lemma OrHalf(a: nat, b: nat)
    requires a > 0 && b > 0
    ensures Or(a, b) / 2 == Or(a / 2, b / 2)
    ensures (Or(a, b) % 2 == 1) == (a % 2 == 1 || b % 2 == 1)
  {
    var low := if a % 2 == 1 || b % 2 == 1 then 1 else 0;
    DivUnique(Or(a, b), 2, Or(a / 2, b / 2), low);
  }

  lemma {:induction false} AndLowMask(a: nat, k: nat)
    ensures And(a, Pow2(k) - 1) == a % Pow2(k)
    decreases k
  {
    if k == 0 {
      assert Pow2(k) - 1 == 0;
      DivUnique(a, 1, a, 0);
    } else if a == 0 {
      DivUnique(0, Pow2(k), 0, 0);
    } else {
      AndLowMask(a / 2, k - 1);
      AndLowMaskStep(a, Pow2(k - 1), Pow2(k), Pow2(k) - 1);
    }
  }

  /** One step of `AndLowMask`: the mask `2p - 1` keeps the lowest bit and
      the low bits of the rest. */
  lemma AndLowMaskStep(a: nat, p: nat, q: nat, mask: nat)
    requires a > 0 && p > 0 && q == 2 * p && mask == q - 1
    requires And(a / 2, p - 1) == (a / 2) % p
    ensures And(a, mask) == a % q
  {
    Halves(p);
    DivHalf(a, p);
  }

  lemma {:induction false} AndHighMask(a: nat, k: nat, n: nat, mask: nat)
    requires k <= n && a < Pow2(n) && mask == Pow2(n) - Pow2(k)
    ensures And(a, mask) == a - a % Pow2(k)
    decreases k
  {
    if a == 0 {
      assert And(a, mask) == 0;
    } else if k == 0 {
      assert mask == Pow2(n) - 1;
      AndFullMask(a, n);
    } else {
      var p, q := Pow2(n - 1), Pow2(k - 1);
      assert Pow2(n) == 2 * p && Pow2(k) == 2 * q;
      assert mask / 2 == p - q && mask % 2 == 0 by {
        assert mask == 2 * (p - q);
      }
      AndHighMask(a / 2, k - 1, n - 1, mask / 2);
      AndHighMaskStep(a, mask, q);
    }
  }

  lemma AndHighMaskStep(a: nat, mask: nat, q: nat)
    requires a > 0 && q > 0 && mask % 2 == 0
    requires And(a / 2, mask / 2) == a / 2 - (a / 2) % q
    ensures And(a, mask) == a - a % (2 * q)
  {
    DivHalf(a, q);
  }

  lemma AndFullMask(a: nat, n: nat)
    requires a < Pow2(n)
    ensures And(a, Pow2(n) - 1) == a
  {
    AndLowMask(a, n);
    DivUnique(a, Pow2(n), 0, a);
  }

  lemma {:induction false} Pow2Mono(k: nat, n: nat)
    requires k <= n
    ensures Pow2(k) <= Pow2(n)
    decreases n
  {
    if k < n {
      Pow2Mono(k, n - 1);
    }
  }

  /** A number below 2^n has no bit at or above position n. */
  lemma BitAbove(w: nat, n: nat, i: nat)
    requires w < Pow2(n) && n <= i
    ensures !Bit(w, i)
  {
    Pow2Mono(n, i);
    DivUnique(w, Pow2(i), 0, w);
    BitDiv(w, i);
  }

  /** `w | (1 << k)` sets bit `k` and keeps every other bit. */
  lemma SetBitFrame(w: nat, k: nat)
    ensures forall i: nat :: Bit(Or(w, Pow2(k)), i) == (i == k || Bit(w, i))
  {
    forall i: nat
      ensures Bit(Or(w, Pow2(k)), i) == (i == k || Bit(w, i))
    {
      BitOr(w, Pow2(k), i);
      BitOfPow2(k, i);
    }
  }

  /** `w & mask`, with `mask` the `n`-bit all-ones word without bit `k`,
      clears bit `k` of an `n`-bit word and keeps every other bit. */
  lemma ClearBitFrame(w: nat, k: nat, n: nat, mask: nat)
    requires k < n && w < Pow2(n) && mask == Pow2(n) - 1 - Pow2(k)
    ensures forall i: nat :: Bit(And(w, mask), i) == (i != k && Bit(w, i))
  {
    forall i: nat
      ensures Bit(And(w, mask), i) == (i != k && Bit(w, i))
    {
      BitAnd(w, mask, i);
      BitOfClearMask(n, k, mask, i);
      if i >= n {
        BitAbove(w, n, i);
      }
    }
  }

  lemma {:induction false} OrDisjoint(a: nat, b: nat, k: nat)
    requires a % Pow2(k) == 0 && b < Pow2(k)
    ensures Or(a, b) == a + b
    decreases k
  {
    if a == 0 || b == 0 {
    } else {
      assert k > 0;
      DivHalf(a, Pow2(k - 1));
      OrDisjoint(a / 2, b / 2, k - 1);
    }
  }

  /** Placing `f` above the `k` low bits that hold `lo`: `lo | (f << k)`
      is `lo + f * 2^k`. */
  lemma OrShifted(lo: nat, f: nat, k: nat, p: nat)
    requires p == Pow2(k) && lo < p
    ensures Or(lo, f * p) == lo + f * p
  {
    DivUnique(f * p, p, f, 0);
    OrComm(lo, f * p);
    OrDisjoint(f * p, lo, k);
  }

  lemma {:induction false} OrBound(a: nat, b: nat, n: nat)
    requires a < Pow2(n) && b < Pow2(n)
    ensures Or(a, b) < Pow2(n)
    decreases n
  {
    if a == 0 || b == 0 {
    } else {
      OrBound(a / 2, b / 2, n - 1);
    }
  }

  lemma {:induction false} AndBound(a: nat, b: nat)
    ensures And(a, b) <= a && And(a, b) <= b
    decreases a
  {
    if a != 0 && b != 0 {
      AndBound(a / 2, b / 2);
    }
  }

  lemma {:induction false} BitsDetermine(a: nat, b: nat)
    requires forall i: nat :: Bit(a, i) == Bit(b, i)
    ensures a == b
    decreases a + b
  {
    if a != b {
      if a == 0 || b == 0 {
        var c := if a == 0 then b else a;
        var i := Log2(c);
        NoBitOfZero(i);
        assert false;
      } else {
        assert Bit(a, 0) == Bit(b, 0);
        forall i: nat ensures Bit(a / 2, i) == Bit(b / 2, i) {
          BitShift(a, i);
          BitShift(b, i);
          assert Bit(a, i + 1) == Bit(b, i + 1);
        }
        BitsDetermine(a / 2, b / 2);
      }
    }
  }

  /** The position of the highest set bit of a positive number. */
  function Log2(c: nat): (i: nat)
    requires c > 0
    ensures Bit(c, i)
    decreases c
  {
    if c == 1 then 0
    else
      var j := Log2(c / 2);
      BitShift(c, j);
      j + 1
  }

  lemma {:induction false} OrComm(a: nat, b: nat)
    ensures Or(a, b) == Or(b, a)
    decreases a + b
  {
    if a != 0 && b != 0 {
      OrComm(a / 2, b / 2);
    }
  }

  lemma BitZero(w: nat)
    ensures Bit(w, 0) == (w % 2 == 1)
  {
  }

  lemma {:induction false} NoBitOfZero(i: nat)
    ensures !Bit(0, i)
  {
    if i > 0 {
      NoBitOfZero(i - 1);
    }
  }

  lemma Halves(p: nat)
    requires p > 0
    ensures (2 * p) / 2 == p && (2 * p) % 2 == 0
    ensures (2 * p - 1) / 2 == p - 1 && (2 * p - 1) % 2 == 1
  {
    DivUnique(2 * p, 2, p, 0);
    DivUnique(2 * p - 1, 2, p - 1, 1);
  }

  lemma {:induction false} BitOfPow2(k: nat, i: nat)
    ensures Bit(Pow2(k), i) == (i == k)
    decreases i
  {
    var w := Pow2(k);
    if k == 0 {
      assert w == 1;
      if i == 0 {
        BitZero(w);
      } else {
        BitShift(w, i - 1);
        assert w / 2 == 0;
        NoBitOfZero(i - 1);
      }
    } else {
      var p := Pow2(k - 1);
      assert w == 2 * p;
      Halves(p);
      if i == 0 {
        BitZero(w);
      } else {
        BitShift(w, i - 1);
        BitOfPow2(k - 1, i - 1);
      }
    }
  }

  lemma {:induction false} BitOfLowOnes(n: nat, i: nat)
    ensures Bit(Pow2(n) - 1, i) == (i < n)
    decreases i
  {
    var w := Pow2(n) - 1;
    if n == 0 {
      assert w == 0;
      NoBitOfZero(i);
    } else {
      var p := Pow2(n - 1);
      assert w == 2 * p - 1;
      Halves(p);
      if i == 0 {
        BitZero(w);
      } else {
        BitShift(w, i - 1);
        BitOfLowOnes(n - 1, i - 1);
      }
    }
  }

  /** `mask` is an `n`-bit all-ones word with bit 0 cleared. */
  lemma BitOfEvenMask(n: nat, mask: nat, i: nat)
    requires 0 < n && mask == Pow2(n) - 2
    ensures Bit(mask, i) == (i < n && i != 0)
  {
    var p := Pow2(n - 1);
    assert Pow2(n) == 2 * p;
    if p == 1 {
      assert mask == 0;
      NoBitOfZero(i);
      assert n == 1;
    } else {
      assert mask == 2 * (p - 1);
      Halves(p - 1);
      if i == 0 {
        BitZero(mask);
      } else {
        BitShift(mask, i - 1);
        BitOfLowOnes(n - 1, i - 1);
      }
    }
  }

  /** `mask` is an `n`-bit all-ones word with bit `k` cleared, like `0xefff`. */
  lemma {:induction false} BitOfClearMask(n: nat, k: nat, mask: nat, i: nat)
    requires k < n && mask == Pow2(n) - 1 - Pow2(k)
    ensures Bit(mask, i) == (i < n && i != k)
    decreases i
  {
    var p := Pow2(n - 1);
    assert Pow2(n) == 2 * p;
    if k == 0 {
      BitOfEvenMask(n, mask, i);
    } else {
      var q := Pow2(k - 1);
      assert Pow2(k) == 2 * q;
      assert mask == 2 * (p - q) - 1 && p - q > 0;
      Halves(p - q);
      if i == 0 {
        BitZero(mask);
      } else {
        BitShift(mask, i - 1);
        BitOfClearMask(n - 1, k - 1, mask / 2, i - 1);
      }
    }
  }

  lemma Pow2Split(k: nat, n: nat)
    requires k <= n
    ensures Pow2(n) == Pow2(k) * Pow2(n - k)
    decreases n
  {
    if k < n {
      Pow2Split(k, n - 1);
      assert Pow2(n) == 2 * Pow2(n - 1);
      assert Pow2(n - k) == 2 * Pow2(n - 1 - k);
    }
  }

  /** The powers of two that the sprite attribute layout uses. */
  lemma Pow2Values()
    ensures Pow2(8) == 0x100 && Pow2(9) == 0x200 && Pow2(10) == 0x400
    ensures Pow2(12) == 0x1000 && Pow2(13) == 0x2000 && Pow2(14) == 0x4000
    ensures Pow2(16) == 0x1_0000
  {
    assert Pow2(4) == 0x10;
    assert Pow2(8) == 0x100;
    assert Pow2(12) == 0x1000;
  }

  lemma ModOfMod(v: int, p: int, q: int)
    requires p > 0 && q > 0
    ensures p * q > 0 && (v % (p * q)) % p == v % p
  {
    var m := p * q;
    assert m > 0 by { MulAtLeast(q, p); }
    var a, l := v / m, v % m;
    var b, r := l / p, l % p;
    assert v == a * m + l;
    assert l == b * p + r;
    assert a * m == (a * q) * p;
    assert v == (a * q + b) * p + r;
    DivUnique(v, p, a * q + b, r);
  }

  /** Reducing modulo 2^16 first does not change the value modulo 2^k. */
  lemma Low16Mod(v: int, k: nat)
    requires k <= 16
    ensures Low16(v) % Pow2(k) == v % Pow2(k)
  {
    Pow2Values();
    Pow2Split(k, 16);
    ModOfMod(v, Pow2(k), Pow2(16 - k));
  }

  /** Clearing the low `k` bits leaves a multiple of 2^k with the same quotient. */
  lemma ClearedLow(a: nat, p: nat)
    requires p > 0
    ensures 0 <= a - a % p <= a
    ensures (a - a % p) % p == 0 && (a - a % p) / p == a / p
  {
    if a < p {
      DivUnique(a, p, 0, a);
    }
    assert a == (a / p) * p + a % p;
    DivUnique(a - a % p, p, a / p, 0);
  }

  /** Storing the low `k` bits of `v` into `a`, as `(a & high) | (v & low)`
      with `high` and `low` complementary masks, yields a word whose low `k`
      bits are those of `v` and whose upper bits are those of `a`.  `p` is
      2^k. */
  lemma SetLowField(a: Word, v: int, k: nat, p: nat, high: nat, low: nat)
    requires k <= 16 && p == Pow2(k) && high == 0x1_0000 - p && low == p - 1
    ensures Or(And(a, high), And(Low16(v), low)) < 0x1_0000
    ensures Or(And(a, high), And(Low16(v), low)) % p == v % p
    ensures Or(And(a, high), And(Low16(v), low)) / p == a / p
  {
    SetLowFieldSum(a, v, k, p, high, low);
    SplitSum(a, v, p);
  }

  /** The two masked parts do not overlap, so `|` adds them. */
  lemma SetLowFieldSum(a: Word, v: int, k: nat, p: nat, high: nat, low: nat)
    requires k <= 16 && p == Pow2(k) && high == 0x1_0000 - p && low == p - 1
    ensures Or(And(a, high), And(Low16(v), low)) == a - a % p + v % p
    ensures a - a % p + v % p < 0x1_0000
  {
    HighPart(a, k, p, high);
    LowPart(v, k, p, low);
    ClearedLow(a, p);
    PartsAdd(a - a % p, v % p, k, p);
  }

  lemma HighPart(a: Word, k: nat, p: nat, high: nat)
    requires k <= 16 && p == Pow2(k) && high == 0x1_0000 - p
    ensures And(a, high) == a - a % p
  {
    Pow2Values();
    AndHighMask(a, k, 16, high);
  }

  lemma LowPart(v: int, k: nat, p: nat, low: nat)
    requires k <= 16 && p == Pow2(k) && low == p - 1
    ensures And(Low16(v), low) == v % p
  {
    AndLowMask(Low16(v), k);
    Low16Mod(v, k);
  }

  lemma PartsAdd(hi: nat, lo: nat, k: nat, p: nat)
    requires k <= 16 && p == Pow2(k) && hi % p == 0 && hi < 0x1_0000 && lo < p
    ensures Or(hi, lo) == hi + lo && hi + lo < 0x1_0000
  {
    OrDisjoint(hi, lo, k);
    Pow2Values();
    Pow2Mono(k, 16);
    OrBound(hi, lo, 16);
  }

  /** Rounding `a` down to a multiple of `p` and adding a remainder of `v`
      gives a number with `a`'s quotient and `v`'s remainder. */
  lemma SplitSum(a: int, v: int, p: int)
    requires p > 0
    ensures (a - a % p + v % p) % p == v % p && (a - a % p + v % p) / p == a / p
  {
    assert a - a % p == (a / p) * p;
    DivUnique(a - a % p + v % p, p, a / p, v % p);
  }


}
