/** 64-bit index arithmetic of the concurrent queue: wrapped comparison and the
    block-index slot formula, related to arithmetic on unbounded integers. */
module Circular {

  const WORD := 0x1_0000_0000_0000_0000
  const HALF := 0x8000_0000_0000_0000
  const BLOCK_SIZE := 32

  /** The 64-bit word that holds the integer `x`. */
  function Wrap(x: int): (w: nat)
    ensures w < WORD
  {
    x % WORD
  }

  /** `details::circular_less_than` on two words. */
  predicate CircularLessThan(a: nat, b: nat)
  {
    Wrap(a - b) > HALF
  }

  /** The wrapped comparison agrees with `<` on the unbounded indices exactly when their
      distance fits, for indices less than a whole turn apart. */
  lemma CircularLessThanAgrees(a: int, b: int)
    requires -WORD < a - b < WORD
    ensures (CircularLessThan(Wrap(a), Wrap(b)) <==> a < b) <==> -HALF < a - b <= HALF
  {
    WrapDifference(a, b);
  }

  /** A distance of 2^63 or more backwards is misread: 0 is before 2^63, and the words
      say it is not. */
  lemma CircularLessThanFailsFarApart()
    ensures 0 < HALF && !CircularLessThan(Wrap(0), Wrap(HALF))
  {
    assert Wrap(0 - HALF) == HALF;
  }

  lemma WrapDifference(a: int, b: int)
    ensures Wrap(Wrap(a) - Wrap(b)) == Wrap(a - b)
  {
    ModShift(a - b, -(a / WORD) + b / WORD, WORD);
    assert Wrap(a) - Wrap(b) == a - b + (-(a / WORD) + b / WORD) * WORD;
  }

  // ---------------------------------------------------------------------------
  // Modular helpers

  /** Adding a multiple of the modulus does not change the remainder. */
  lemma ModShift(x: int, k: int, m: int)
    requires m > 0
    ensures (x + k * m) % m == x % m
  {
    var q, r := x / m, x % m;
    assert x + k * m == (q + k) * m + r;
    ModUnique((q + k) * m + r, q + k, r, m);
  }

  lemma ModUnique(x: int, q: int, r: int, m: int)
    requires 0 <= r < m && x == q * m + r
    ensures x % m == r && x / m == q
  {
    var d := q - x / m;
    assert d * m == x % m - r by { assert d * m == q * m - (x / m) * m; }
    if d >= 1 { MulAtLeast(d, m); }
    if d <= -1 { MulAtLeast(-d, m); }
  }

  lemma MulAtLeast(d: int, m: int)
    requires d >= 1 && m >= 0
    ensures d * m >= m
  {
    assert d * m == (d - 1) * m + m;
  }

  /** The remainder modulo a divisor of the modulus can be taken first or last. */
  lemma ModDivisor(x: int, c: int, q: int)
    requires c > 0 && q > 0
    ensures (x % (c * q)) % c == x % c
  {
    assert c * q > 0;
    var y := x % (c * q);
    var k := x / (c * q);
    assert x == y + (k * q) * c by {
      assert x == k * (c * q) + y;
      assert k * (c * q) == (k * q) * c;
    }
    ModShift(y, k * q, c);
  }

  /** Remainders of sums depend only on remainders. */
  lemma ModAdd(x: int, y: int, m: int)
    requires m > 0
    ensures (x + y % m) % m == (x + y) % m
  {
    ModShift(x + y, -(y / m), m);
    assert x + y % m == x + y + (-(y / m)) * m;
  }

  // ---------------------------------------------------------------------------
  // get_block_index_index_for_index

  /** The slot the code computes from four words. The cast to a signed type before the
      division has no effect: BLOCK_SIZE is unsigned, so the division is unsigned. */
  function Slot64(index: nat, tailBase: nat, tail: nat, capacity: nat): nat
    requires capacity > 0
  {
    var offset := Wrap(index - tailBase) / BLOCK_SIZE;
    Wrap(tail + offset) % capacity
  }

  /** For a block `k` places after (or, if negative, before) the tail block, however the
      64-bit indices have wrapped, the formula yields the slot `k` places after the tail
      slot, for every capacity that divides 2^64 / BLOCK_SIZE. */
  lemma SlotIsRelative(index: int, tailBase: int, k: int, tail: nat, capacity: nat, turns: nat)
    requires index - tailBase == k * BLOCK_SIZE
    requires capacity * turns == WORD / BLOCK_SIZE
    requires capacity > 0 && turns > 0
    ensures Slot64(Wrap(index), Wrap(tailBase), tail, capacity) == (tail + k) % capacity
  {
    var m := WORD / BLOCK_SIZE;
    WrapDifference(index, tailBase);
    var offset := Wrap(k * BLOCK_SIZE) / BLOCK_SIZE;
    assert offset == k % m by {
      var q, r := k / m, k % m;
      assert k * BLOCK_SIZE == q * WORD + r * BLOCK_SIZE;
      ModUnique(k * BLOCK_SIZE, q, r * BLOCK_SIZE, WORD);
    }
    calc {
      Wrap(tail + offset) % capacity;
      { assert capacity * (turns * BLOCK_SIZE) == WORD; ModDivisor(tail + offset, capacity, turns * BLOCK_SIZE); }
      (tail + k % m) % capacity;
      { ModDivisor(tail + k % m, capacity, turns); ModAdd(tail, k, m); }
      ((tail + k) % m) % capacity;
      { ModDivisor(tail + k, capacity, turns); }
      (tail + k) % capacity;
    }
  }
}
