/** The 32-bit integer coercions the rings are written in: `x | 0` is ToInt32 (section 7.1.6 of
    ECMA-262, 2022 edition) and `x >>> 0` is ToUint32 (section 7.1.7). */
module Int32 {

  const TWO_31: int := 0x8000_0000
  const TWO_32: int := 0x1_0000_0000

  function ToUint32(x: int): (u: int)
    ensures 0 <= u < TWO_32
  {
    x % TWO_32
  }

  function ToInt32(x: int): (i: int)
    ensures -TWO_31 <= i < TWO_31
  {
    var u := x % TWO_32;
    if u < TWO_31 then u else u - TWO_32
  }

  /** `(a - b) | 0` */
  function SignedDiff(a: int, b: int): (d: int)
  {
    ToInt32(a - b)
  }

  /** The lanes that hold given values. */
  function WrapAll(xs: seq<int>): (ys: seq<int>)
    ensures |ys| == |xs| && forall i :: 0 <= i < |xs| ==> ys[i] == ToInt32(xs[i])
  {
    seq(|xs|, i requires 0 <= i < |xs| => ToInt32(xs[i]))
  }

  /** Bitwise AND of two non-negative integers, bit by bit. */
  function And(x: nat, y: nat): (z: nat)
    decreases x
  {
    if x == 0 then 0 else (if x % 2 == 1 && y % 2 == 1 then 1 else 0) + 2 * And(x / 2, y / 2)
  }

  /** Masking never exceeds the mask, so a slot is always inside the ring. */
  lemma {:induction false} AndBound(x: nat, y: nat)
    ensures And(x, y) <= y
    decreases x
  {
    if x > 0 {
      AndBound(x / 2, y / 2);
    }
  }

  function Pow2(k: nat): (p: nat)
    ensures p >= 1
  {
    if k == 0 then 1 else 2 * Pow2(k - 1)
  }

  ghost predicate IsPowerOfTwo(n: int) {
    exists k: nat :: n == Pow2(k)
  }

  /** ToInt32 picks the representative of x modulo 2^32 that lies in [-2^31, 2^31). */
  lemma {:induction false} ToInt32Unique(x: int, i: int)
    requires -TWO_31 <= i < TWO_31
    ensures ToInt32(x) == i <==> (x - i) % TWO_32 == 0
  {
    var q := x / TWO_32;
    assert x == q * TWO_32 + x % TWO_32;
    if (x - i) % TWO_32 == 0 {
      var k := (x - i) / TWO_32;
      assert x == i + k * TWO_32;
      assert x % TWO_32 == if i >= 0 then i else i + TWO_32;
    }
  }

  /** A difference of lanes is the wrapped difference of the tickets behind them. */
  lemma {:induction false} SignedDiffWraps(a: int, b: int)
    ensures SignedDiff(ToInt32(a), ToInt32(b)) == ToInt32(a - b)
  {
    var qa, qb, q := a / TWO_32, b / TWO_32, (a - b) / TWO_32;
    assert a == qa * TWO_32 + a % TWO_32 && b == qb * TWO_32 + b % TWO_32;
    assert a - b == q * TWO_32 + (a - b) % TWO_32;
    var ka := if a % TWO_32 < TWO_31 then qa else qa + 1;
    var kb := if b % TWO_32 < TWO_31 then qb else qb + 1;
    var k := if (a - b) % TWO_32 < TWO_31 then q else q + 1;
    var x, i := ToInt32(a) - ToInt32(b), ToInt32(a - b);
    assert x - i == (kb - ka + k) * TWO_32;
    assert (x - i) % TWO_32 == 0;
    ToInt32Unique(x, i);
  }

  /** So wrapping the operands changes nothing while the true difference fits. */
  lemma SignedDiffExact(a: int, b: int)
    requires -TWO_31 <= a - b < TWO_31
    ensures SignedDiff(ToInt32(a), ToInt32(b)) == a - b
  {
    SignedDiffWraps(a, b);
    ToInt32Unique(a - b, a - b);
  }

  /** Wrapping is compatible with adding: `(wrapped + k) | 0` wraps the true sum. */
  lemma {:induction false} ToInt32Add(a: int, k: int)
    ensures ToInt32(ToInt32(a) + k) == ToInt32(a + k)
  {
    var qa := a / TWO_32;
    assert a == qa * TWO_32 + a % TWO_32;
    var ka := if a % TWO_32 < TWO_31 then qa else qa + 1;
    assert ToInt32(a) == a - ka * TWO_32;
    var i := ToInt32(a + k);
    ToInt32Unique(a + k, i);
    assert (a + k - i) % TWO_32 == 0;
    var m := (a + k - i) / TWO_32;
    assert ToInt32(a) + k - i == (m - ka) * TWO_32;
    assert (ToInt32(a) + k - i) % TWO_32 == 0;
    ToInt32Unique(ToInt32(a) + k, i);
  }

  /** Two tickets less than 2^32 apart have the same lane value only if they are the same. */
  lemma ToInt32Injective(a: int, b: int)
    requires -TWO_32 < a - b < TWO_32
    ensures ToInt32(a) == ToInt32(b) <==> a == b
  {
    SignedDiffWraps(a, b);
    ToInt32Unique(a - b, 0);
  }

  /** Masking with capacity - 1 is reduction modulo a power-of-two capacity. */
  lemma {:induction false} AndMask(x: nat, k: nat)
    ensures And(x, Pow2(k) - 1) == x % Pow2(k)
  {
    var q := AndQuotient(x, k);
    ModUnique(x, Pow2(k), q, And(x, Pow2(k) - 1));
  }

  lemma {:induction false} AndQuotient(x: nat, k: nat) returns (q: nat)
    ensures x == Pow2(k) * q + And(x, Pow2(k) - 1) && And(x, Pow2(k) - 1) < Pow2(k)
    decreases k
  {
    if x == 0 {
      q := 0;
    } else if k == 0 {
      AndZero(x);
      q := x;
    } else {
      q := AndQuotient(x / 2, k - 1);
      AndOddMask(x, Pow2(k - 1));
      DoubleBack(x, Pow2(k - 1), q, And(x / 2, Pow2(k - 1) - 1));
    }
  }

  lemma DoubleBack(x: nat, p: nat, q: nat, r: nat)
    requires x / 2 == p * q + r
    ensures x == (2 * p) * q + (x % 2 + 2 * r)
  {
    assert (2 * p) * q == 2 * (p * q);
  }

  lemma {:induction false} AndOddMask(x: nat, m: nat)
    requires x > 0 && m > 0
    ensures And(x, 2 * m - 1) == x % 2 + 2 * And(x / 2, m - 1)
  {
    assert (2 * m - 1) % 2 == 1 && (2 * m - 1) / 2 == m - 1;
  }

  lemma {:induction false} AndZero(x: nat)
    ensures And(x, 0) == 0
    decreases x
  {
    if x > 0 {
      AndZero(x / 2);
    }
  }

  /** The only multiple of n strictly between -n and n is 0. */
  lemma MultipleInside(n: int, k: int)
    requires n > 0
    ensures -n < n * k < n ==> k == 0
  {
    if k >= 1 {
      assert n * k >= n * 1;
    } else if k <= -1 {
      assert n * k <= n * -1;
    }
  }

  lemma ModUnique(x: int, n: int, q: int, r: int)
    requires n > 0 && x == n * q + r && 0 <= r < n
    ensures x % n == r
  {
    var q', r' := x / n, x % n;
    var k := q - q';
    assert n * k == r' - r by {
      assert n * q == n * q' + n * k;
    }
    MultipleInside(n, k);
  }

  /** `(ticket >>> 0) & mask` on the wrapped ticket is the true ticket modulo the capacity, for every
      power of two that divides 2^32. */
  lemma {:induction false} SlotExact(ticket: int, k: nat)
    requires k <= 32
    ensures And(ToUint32(ToInt32(ticket)), Pow2(k) - 1) == ticket % Pow2(k)
  {
    var u := ToUint32(ToInt32(ticket));
    assert u == ticket % TWO_32;
    AndMask(u, k);
    Pow2Split(k, 32 - k);
    Pow2Of32();
    ModMod(ticket, Pow2(k), Pow2(32 - k));
  }

  lemma Pow2Of32()
    ensures Pow2(32) == TWO_32
  {
    Pow2Split(16, 16);
    Pow2Split(8, 8);
    assert Pow2(8) == 256;
  }

  lemma Reassociate(p: int, q: int)
    ensures (2 * p) * q == 2 * (p * q)
  {
  }

  lemma {:induction false} Pow2Split(a: nat, b: nat)
    ensures Pow2(a + b) == Pow2(a) * Pow2(b)
    decreases a
  {
    if a > 0 {
      Pow2Split(a - 1, b);
      Reassociate(Pow2(a - 1), Pow2(b));
    }
  }

  lemma {:induction false} Pow2Limit(k: nat)
    requires k <= 30
    ensures Pow2(k) <= 0x4000_0000
    decreases 30 - k
  {
    if k == 30 {
      assert Pow2(30) == 0x4000_0000 by {
        Pow2Split(15, 15);
        assert Pow2(15) == 32768 by { Pow2Split(8, 7); assert Pow2(8) == 256 && Pow2(7) == 128; }
      }
    } else {
      Pow2Limit(k + 1);
    }
  }

  lemma ModMod(x: int, m: int, n: int)
    requires m > 0 && n > 0 && m * n > 0
    ensures (x % (m * n)) % m == x % m
  {
    var q, r := x / (m * n), x % (m * n);
    var q2, r2 := r / m, r % m;
    assert x == m * (n * q + q2) + r2 by {
      assert x == (m * n) * q + r;
      assert r == m * q2 + r2;
      assert (m * n) * q == m * (n * q);
    }
    ModUnique(x, m, n * q + q2, r2);
  }

  /** The constructors' test `(capacity & (capacity - 1)) === 0` accepts exactly the powers of two. */
  lemma {:induction false} PowerOfTwoTest(n: nat)
    requires n >= 1
    ensures And(n, n - 1) == 0 <==> IsPowerOfTwo(n)
    decreases n
  {
    if n == 1 {
      assert n == Pow2(0);
    } else if n % 2 == 0 {
      PowerOfTwoTest(n / 2);
      assert (n - 1) / 2 == n / 2 - 1;
      if IsPowerOfTwo(n / 2) {
        var k: nat :| n / 2 == Pow2(k);
        assert n == Pow2(k + 1);
      }
      if IsPowerOfTwo(n) {
        var k: nat :| n == Pow2(k);
        assert n / 2 == Pow2(k - 1);
      }
    } else {
      var h := n / 2;
      assert (n - 1) / 2 == h && (n - 1) % 2 == 0;
      AndSelf(h);
      assert And(n, n - 1) == 2 * h;
      if IsPowerOfTwo(n) {
        Pow2Parity(n);
        assert false;
      }
    }
  }

  /** An odd number above 1 is not a power of two. */
  lemma Pow2Parity(n: nat)
    requires n > 1 && IsPowerOfTwo(n)
    ensures n % 2 == 0
  {
    var k: nat :| n == Pow2(k);
    assert k > 0;
  }

  lemma {:induction false} AndSelf(n: nat)
    ensures And(n, n) == n
    decreases n
  {
    if n > 0 {
      AndSelf(n / 2);
    }
  }
}
