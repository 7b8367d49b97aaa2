/** Sums of a per-thread quantity over the sequence of threads of a protocol.
    Every counting argument of the project (references held, tickets in flight,
    permits, readers, waiters) is an instance of `Sum`. */
module Counting {

  ghost function Sum<T>(s: seq<T>, f: T -> nat): (r: nat)
  {
    if |s| == 0 then 0 else f(s[0]) + Sum(s[1..], f)
  }

  /** One thread changes: only its own contribution changes. */
  lemma {:induction false} SumUpdate<T>(s: seq<T>, i: nat, x: T, f: T -> nat)
    requires i < |s|
    ensures Sum(s[i := x], f) == Sum(s, f) - f(s[i]) + f(x)
  {
    if i == 0 {
      assert s[i := x][1..] == s[1..];
    } else {
      assert s[i := x][1..] == s[1..][i - 1 := x];
      SumUpdate(s[1..], i - 1, x, f);
    }
  }

  /** A single contribution is bounded by the sum. */
  lemma {:induction false} SumMember<T>(s: seq<T>, i: nat, f: T -> nat)
    requires i < |s|
    ensures f(s[i]) <= Sum(s, f)
  {
    if i > 0 { SumMember(s[1..], i - 1, f); }
  }

  /** If every contribution is at most `b`, the sum is at most `b` per thread. */
  lemma {:induction false} SumBound<T>(s: seq<T>, f: T -> nat, b: nat)
    requires forall i :: 0 <= i < |s| ==> f(s[i]) <= b
    ensures Sum(s, f) <= b * |s|
  {
    if |s| > 0 {
      assert forall i :: 0 <= i < |s[1..]| ==> s[1..][i] == s[i + 1];
      SumBound(s[1..], f, b);
      assert b * |s| == b + b * |s[1..]| by { assert |s| == 1 + |s[1..]|; }
    }
  }

  /** If nobody contributes, the sum is zero. */
  lemma {:induction false} SumZero<T>(s: seq<T>, f: T -> nat)
    requires forall i :: 0 <= i < |s| ==> f(s[i]) == 0
    ensures Sum(s, f) == 0
  {
    SumBound(s, f, 0);
  }

  /** If one quantity is below another for every thread and the sums agree, so do they. */
  lemma {:induction false} SumEqual<T>(s: seq<T>, f: T -> nat, g: T -> nat)
    requires forall i :: 0 <= i < |s| ==> f(s[i]) <= g(s[i])
    ensures Sum(s, f) <= Sum(s, g)
    ensures Sum(s, f) == Sum(s, g) ==> forall i :: 0 <= i < |s| ==> f(s[i]) == g(s[i])
  {
    if |s| > 0 {
      assert forall i :: 0 <= i < |s[1..]| ==> s[1..][i] == s[i + 1];
      SumEqual(s[1..], f, g);
      if Sum(s, f) == Sum(s, g) {
        forall i | 0 <= i < |s| ensures f(s[i]) == g(s[i]) {
          if i > 0 { assert s[i] == s[1..][i - 1]; }
        }
      }
    }
  }
}
