/** Bit operations on natural numbers, and the power-of-two rounding of the ring queue. */
module Bits {
  import opened Circular

  function Pow2(n: nat): (r: nat)
    ensures r >= 1
  {
    if n == 0 then 1 else 2 * Pow2(n - 1)
  }

  function Or(a: nat, b: nat): nat
  {
    if a == 0 && b == 0 then 0
    else 2 * Or(a / 2, b / 2) + (if a % 2 == 1 || b % 2 == 1 then 1 else 0)
  }

  function And(a: nat, b: nat): nat
  {
    if a == 0 || b == 0 then 0
    else 2 * And(a / 2, b / 2) + (if a % 2 == 1 && b % 2 == 1 then 1 else 0)
  }

  /** `x >> n`: halving n times. */
  function Shr(x: nat, n: nat): nat { if n == 0 then x else Shr(x / 2, n - 1) }

  // ---------------------------------------------------------------------------
  // Powers of two and runs of ones

  lemma {:induction false} Pow2Monotone(a: nat, b: nat)
    requires a <= b
    ensures Pow2(a) <= Pow2(b)
  {
    if a < b { Pow2Monotone(a, b - 1); }
  }

  /** n ones. */
  function Ones(n: nat): nat { Pow2(n) - 1 }

  /** The bits of h followed by c ones. */
  function Join(h: nat, c: nat): nat { if c == 0 then h else 2 * Join(h, c - 1) + 1 }

  lemma OnesHalf(n: nat)
    requires n > 0
    ensures Ones(n) / 2 == Ones(n - 1) && Ones(n) % 2 == 1
  {
  }

  lemma {:induction false} JoinOnes(c: nat, d: nat)
    ensures Join(Ones(c), d) == Ones(c + d)
  {
    if d > 0 { JoinOnes(c, d - 1); }
  }

  // ---------------------------------------------------------------------------
  // Or and shifts

  lemma {:induction false} ShrShr(x: nat, m: nat, n: nat)
    ensures Shr(Shr(x, m), n) == Shr(x, m + n)
  {
    if m > 0 { ShrShr(x / 2, m - 1, n); }
  }

  lemma {:induction false} OrShr(a: nat, b: nat, m: nat)
    ensures Shr(Or(a, b), m) == Or(Shr(a, m), Shr(b, m))
  {
    if m > 0 {
      assert Or(a, b) / 2 == Or(a / 2, b / 2);
      OrShr(a / 2, b / 2, m - 1);
    }
  }

  lemma {:induction false} OrOnes(a: nat, c: nat)
    ensures Or(a, Ones(c)) == Join(Shr(a, c), c)
  {
    if c == 0 {
      OrZero(a);
    } else {
      OnesHalf(c);
      OrOnes(a / 2, c - 1);
    }
  }

  lemma {:induction false} OrZero(a: nat)
    ensures Or(a, 0) == a
  {
    if a > 0 { OrZero(a / 2); }
  }

  lemma {:induction false} OnesShr(c: nat, k: nat)
    requires k <= c
    ensures Shr(Ones(c), k) == Ones(c - k)
  {
    if k > 0 { OnesHalf(c); OnesShr(c - 1, k - 1); }
  }

  lemma {:induction false} ShrSmall(x: nat, n: nat, c: nat)
    requires x < Pow2(n) && c >= n
    ensures Shr(x, c) == 0
    decreases c
  {
    if c > 0 { ShrSmall(x / 2, if n > 0 then n - 1 else 0, c - 1); }
  }

  // ---------------------------------------------------------------------------
  // ceilToPow2

  /** `x` has `n` bits and the top `c` of them (all, if `c >= n`) are ones. */
  ghost predicate TopOnes(x: nat, n: nat, c: nat)
  {
    x < Pow2(n) && if c >= n then x == Ones(n) else Shr(x, n - c) == Ones(c)
  }

  /** Or-ing with itself shifted by `c` doubles the run of ones at the top. */
  lemma SmearDoubles(x: nat, n: nat, c: nat)
    requires TopOnes(x, n, c) && c > 0
    ensures TopOnes(Or(x, Shr(x, c)), n, 2 * c)
  {
    if c >= n {
      ShrSmall(x, n, c);
      OrZero(x);
    } else if 2 * c <= n {
      var m := n - 2 * c;
      assert m + c == n - c;
      SmearInside(x, m, c);
      TopFromShift(Or(x, Shr(x, c)), m, 2 * c);
    } else {
      SmearToEnd(x, n - c, c);
    }
  }

  /** Room for both runs above the m low bits. */
  lemma SmearInside(x: nat, m: nat, c: nat)
    requires Shr(x, m + c) == Ones(c)
    ensures Shr(Or(x, Shr(x, c)), m) == Ones(2 * c)
  {
    ShrShr(x, c, m);
    OrShr(x, Shr(x, c), m);
    ShrShr(x, m, c);
    OrOnes(Shr(x, m), c);
    JoinOnes(c, c);
  }

  /** Only d bits below the run, fewer than it is long. */
  lemma SmearToEnd(x: nat, d: nat, c: nat)
    requires Shr(x, d) == Ones(c) && d <= c
    ensures Or(x, Shr(x, c)) == Ones(c + d)
  {
    ShrShr(x, d, c - d);
    OnesShr(c, c - d);
    OrOnes(x, d);
    JoinOnes(c, d);
  }

  /** A number that is c ones after m halvings has m + c bits. */
  lemma {:induction false} TopFromShift(y: nat, m: nat, c: nat)
    requires Shr(y, m) == Ones(c)
    ensures y < Pow2(m + c)
  {
    if m > 0 { TopFromShift(y / 2, m - 1, c); }
  }

  /** Every positive number has a length in bits. */
  lemma {:induction false} BitLength(y: nat) returns (n: nat)
    requires y > 0
    ensures n > 0 && Pow2(n - 1) <= y < Pow2(n)
  {
    if y == 1 {
      n := 1;
      assert Pow2(1) == 2;
    } else {
      n := BitLength(y / 2);
      n := n + 1;
    }
  }

  lemma {:induction false} TopBit(y: nat, n: nat)
    requires n > 0 && Pow2(n - 1) <= y < Pow2(n)
    ensures Shr(y, n - 1) == 1
  {
    if n > 1 { TopBit(y / 2, n - 1); }
  }

  /** The value after the first `k` of the shifts by 1, 2, 4, 8, 16, 32. */
  function Smeared(y: nat, k: nat): nat
  {
    if k == 0 then y else Or(Smeared(y, k - 1), Shr(Smeared(y, k - 1), Pow2(k - 1)))
  }

  lemma {:induction false} SmearedTop(y: nat, n: nat, k: nat)
    requires if y == 0 then n == 0 else n > 0 && Pow2(n - 1) <= y < Pow2(n)
    ensures TopOnes(Smeared(y, k), n, Pow2(k))
  {
    assert Pow2(0) == 1;
    if k > 0 {
      SmearedTop(y, n, k - 1);
      SmearDoubles(Smeared(y, k - 1), n, Pow2(k - 1));
    } else if y > 0 {
      TopBit(y, n);
      assert Ones(1) == 1;
    }
  }

  /** ceilToPow2 of a 64-bit word: the least power of two not below a positive argument
      up to 2^63; zero, by wrap-around, for zero and for larger arguments. */
  method CeilToPow2(x0: nat) returns (x: nat)
    requires x0 < WORD
    ensures x0 == 0 || x0 > HALF ==> x == 0
    ensures 0 < x0 <= HALF ==> x0 <= x <= HALF && exists e: nat :: x == Pow2(e)
    ensures 0 < x0 <= HALF ==> forall e: nat :: x0 <= Pow2(e) ==> x <= Pow2(e)
  {
    x := Wrap(x0 - 1);
    ghost var y := x;
    assert Pow2(0) == 1 && Pow2(1) == 2 && Pow2(2) == 4 && Pow2(3) == 8 && Pow2(4) == 16 && Pow2(5) == 32;
    x := Or(x, Shr(x, 1));
    assert x == Smeared(y, 1);
    x := Or(x, Shr(x, 2));
    assert x == Smeared(y, 2);
    x := Or(x, Shr(x, 4));
    assert x == Smeared(y, 3);
    var i := 1;
    ghost var k := 3;
    while i < 8
      invariant (i == 1 && k == 3) || (i == 2 && k == 4) || (i == 4 && k == 5) || (i == 8 && k == 6)
      invariant x == Smeared(y, k)
    {
      x := Or(x, Shr(x, 8 * i));
      i, k := 2 * i, k + 1;
    }
    ghost var n := SmearedFills(y);
    x := Wrap(x + 1);
    RoundedUp(x0, y, n, x);
  }

  lemma Pow2Eight(n: nat)
    ensures Pow2(n + 8) == 0x100 * Pow2(n)
  {
    assert Pow2(n + 2) == 4 * Pow2(n);
    assert Pow2(n + 4) == 4 * Pow2(n + 2);
    assert Pow2(n + 6) == 4 * Pow2(n + 4);
  }

  lemma Pow2Of64()
    ensures Pow2(63) == HALF && Pow2(64) == WORD
  {
    Pow2Eight(0); Pow2Eight(8); Pow2Eight(16); Pow2Eight(24); Pow2Eight(32); Pow2Eight(40); Pow2Eight(48);
    assert Pow2(56) == 0x100_0000_0000_0000;
    assert Pow2(59) == 8 * Pow2(56);
    assert Pow2(62) == 8 * Pow2(59);
  }

  /** Smearing a word fills it with ones up to its top bit. */
  lemma SmearedFills(y: nat) returns (n: nat)
    requires y < WORD
    ensures n <= 64 && Smeared(y, 6) == Pow2(n) - 1
    ensures if y == 0 then n == 0 else n > 0 && Pow2(n - 1) <= y < Pow2(n)
  {
    n := 0;
    if y > 0 { n := BitLength(y); }
    assert n <= 64 by {
      Pow2Of64();
      if n > 64 { Pow2Monotone(64, n - 1); }
    }
    SmearedTop(y, n, 6);
    assert Pow2(6) == 64;
  }

  lemma LeastPower(x0: nat, n: nat)
    requires n < 64 && if x0 == 1 then n == 0 else n > 0 && Pow2(n - 1) < x0 <= Pow2(n)
    ensures Pow2(n) <= HALF
    ensures forall e: nat :: x0 <= Pow2(e) ==> Pow2(n) <= Pow2(e)
  {
    Pow2Of64();
    Pow2Monotone(n, 63);
    forall e: nat | x0 <= Pow2(e) ensures Pow2(n) <= Pow2(e) {
      if e < n { Pow2Monotone(e, n - 1); } else { Pow2Monotone(n, e); }
    }
  }

  lemma RoundedUp(x0: nat, y: nat, n: nat, x: nat)
    requires x0 < WORD && y == Wrap(x0 - 1) && n <= 64 && x == Wrap(Pow2(n))
    requires if y == 0 then n == 0 else n > 0 && Pow2(n - 1) <= y < Pow2(n)
    ensures x0 == 0 || x0 > HALF ==> x == 0
    ensures 0 < x0 <= HALF ==> x0 <= x <= HALF && exists e: nat :: x == Pow2(e)
    ensures 0 < x0 <= HALF ==> forall e: nat :: x0 <= Pow2(e) ==> x <= Pow2(e)
  {
    Pow2Of64();
    if 0 < x0 <= HALF {
      assert y == x0 - 1 && n < 64;
      LeastPower(x0, n);
      assert x == Pow2(n);
    } else {
      assert y >= HALF;
      if n < 64 { Pow2Monotone(n, 63); }
      assert n == 64;
    }
  }

  // ---------------------------------------------------------------------------
  // Masks

  /** Masking with e ones splits off the e low bits. */
  lemma {:induction false} MaskSplits(x: nat, e: nat)
    ensures And(x, Ones(e)) < Pow2(e) && x == Shr(x, e) * Pow2(e) + And(x, Ones(e))
  {
    if e > 0 {
      OnesHalf(e);
      MaskSplits(x / 2, e - 1);
      TwiceProduct(Shr(x, e), Pow2(e - 1));
      assert And(x, Ones(e)) == 2 * And(x / 2, Ones(e - 1)) + x % 2;
    }
  }

  lemma TwiceProduct(q: nat, p: nat)
    ensures q * (2 * p) == 2 * (q * p)
  {
  }

  /** Masking with one less than a power of two is the remainder. */
  lemma MaskIsRemainder(x: nat, e: nat)
    ensures And(x, Pow2(e) - 1) == x % Pow2(e)
  {
    MaskSplits(x, e);
    ModUnique(x, Shr(x, e), And(x, Ones(e)), Pow2(e));
  }
}
