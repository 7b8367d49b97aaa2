/** Positions on a circular array: stepping forward and back, and what stepping says about
    the remainder formulas that the block index uses. */
module Slots {
  import opened Circular

  /** (i + 1) & (capacity - 1) and (i - 1) & (capacity - 1). */
  function Next(cap: nat, i: nat): nat { if i + 1 < cap then i + 1 else 0 }
  function Prev(cap: nat, i: nat): nat { if i > 0 then i - 1 else if cap > 0 then cap - 1 else 0 }

  /** The position `d` steps after `from` (before it, if `d` is negative). */
  function Walk(cap: nat, from: nat, d: int): nat
    decreases if d < 0 then -d else d
  {
    if d == 0 then from else if d > 0 then Next(cap, Walk(cap, from, d - 1)) else Prev(cap, Walk(cap, from, d + 1))
  }

  lemma {:induction false} WalkBound(cap: nat, from: nat, d: int)
    requires from < cap
    ensures Walk(cap, from, d) < cap
    decreases if d < 0 then -d else d
  {
    if d > 0 { WalkBound(cap, from, d - 1); } else if d < 0 { WalkBound(cap, from, d + 1); }
  }

  lemma WalkStep(cap: nat, from: nat, d: int)
    requires from < cap
    ensures Walk(cap, from, d + 1) == Next(cap, Walk(cap, from, d))
    ensures Walk(cap, from, d) == Prev(cap, Walk(cap, from, d + 1))
  {
    WalkBound(cap, from, d);
    WalkBound(cap, from, d + 1);
  }

  lemma {:induction false} WalkAdd(cap: nat, from: nat, a: int, b: int)
    requires from < cap
    ensures Walk(cap, Walk(cap, from, a), b) == Walk(cap, from, a + b)
    decreases if b < 0 then -b else b
  {
    if b > 0 {
      WalkAdd(cap, from, a, b - 1);
      WalkStep(cap, from, a + b - 1);
    } else if b < 0 {
      WalkAdd(cap, from, a, b + 1);
      WalkStep(cap, from, a + b);
    }
  }

  /** Without wrapping, and wrapping once. */
  lemma {:induction false} WalkNear(cap: nat, from: nat, d: nat)
    requires from < cap && d <= cap
    ensures Walk(cap, from, d) == if from + d < cap then from + d else from + d - cap
  {
    if d > 0 { WalkNear(cap, from, d - 1); }
  }

  /** Two different distances less than a whole turn apart lead to different positions. */
  lemma WalkInjective(cap: nat, from: nat, a: int, b: int)
    requires from < cap && a < b < a + cap
    ensures Walk(cap, from, a) != Walk(cap, from, b)
  {
    WalkBound(cap, from, a);
    WalkAdd(cap, from, a, b - a);
    WalkNear(cap, Walk(cap, from, a), b - a);
  }

  /** A whole turn leads back. */
  lemma WalkTurn(cap: nat, from: nat, d: int)
    requires from < cap
    ensures Walk(cap, from, d + cap) == Walk(cap, from, d)
  {
    WalkBound(cap, from, d);
    WalkAdd(cap, from, d, cap);
    WalkNear(cap, Walk(cap, from, d), cap);
  }

  /** Walking as far as the position that `d` leads to from zero is walking `d`. */
  lemma {:induction false} WalkPosition(cap: nat, from: nat, d: int)
    requires from < cap
    ensures Walk(cap, from, Walk(cap, 0, d)) == Walk(cap, from, d)
    decreases if d < 0 then -d else d
  {
    if d > 0 {
      WalkPosition(cap, from, d - 1);
      WalkBound(cap, 0, d - 1);
      if Walk(cap, 0, d) == 0 { WalkNear(cap, from, cap - 1); WalkTurn(cap, from, 0); WalkStep(cap, from, cap - 1); }
    } else if d < 0 {
      WalkPosition(cap, from, d + 1);
      WalkBound(cap, 0, d + 1);
      if Walk(cap, 0, d + 1) == 0 { WalkTurn(cap, from, -1); } else { WalkStep(cap, from, Walk(cap, 0, d)); }
    }
  }

  /** A position on an array of twice the size, folded onto the array. */
  function Fold(cap: nat, i: nat): nat { if i < cap then i else i - cap }

  /** Walking and folding commute. */
  lemma {:induction false} WalkFold(cap: nat, from: nat, d: int)
    requires from < 2 * cap
    ensures Walk(2 * cap, from, d) < 2 * cap
    ensures Fold(cap, Walk(2 * cap, from, d)) == Walk(cap, Fold(cap, from), d)
    decreases if d < 0 then -d else d
  {
    if d > 0 { WalkFold(cap, from, d - 1); } else if d < 0 { WalkFold(cap, from, d + 1); }
  }

  /** Walking is addition modulo the capacity, which is what the masks compute. */
  lemma {:induction false} WalkIsRemainder(cap: nat, from: nat, d: int)
    requires from < cap
    ensures Walk(cap, from, d) == (from + d) % cap
    decreases if d < 0 then -d else d
  {
    if d == 0 {
      ModUnique(from, 0, from, cap);
    } else if d > 0 {
      WalkIsRemainder(cap, from, d - 1);
      NextRemainder(cap, from + d - 1);
    } else {
      WalkIsRemainder(cap, from, d + 1);
      NextRemainder(cap, from + d);
    }
  }

  lemma NextRemainder(cap: nat, x: int)
    requires cap > 0
    ensures (x + 1) % cap == Next(cap, x % cap) && x % cap == Prev(cap, (x + 1) % cap)
  {
    var q, r := x / cap, x % cap;
    if r + 1 < cap {
      ModUnique(x + 1, q, r + 1, cap);
    } else {
      assert x + 1 == (q + 1) * cap;
      ModUnique(x + 1, q + 1, 0, cap);
    }
  }

  /** The slot computed from wrapped 64-bit words is the walk from the tail slot. */
  lemma LookupIsWalk(block: int, tailBlock: int, tail: nat, capacity: nat, turns: nat)
    requires tail < capacity && turns > 0 && capacity * turns == WORD / BLOCK_SIZE
    ensures Slot64(Wrap(block * BLOCK_SIZE), Wrap(tailBlock * BLOCK_SIZE), tail, capacity)
         == Walk(capacity, tail, block - tailBlock)
  {
    assert block * BLOCK_SIZE - tailBlock * BLOCK_SIZE == (block - tailBlock) * BLOCK_SIZE;
    SlotIsRelative(block * BLOCK_SIZE, tailBlock * BLOCK_SIZE, block - tailBlock, tail, capacity, turns);
    WalkIsRemainder(capacity, tail, block - tailBlock);
  }
}
