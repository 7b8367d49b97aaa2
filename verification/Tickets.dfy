/** Optimistic dequeueing from one producer's sub-queue. Consumers take tickets by adding
    to dequeueOptimisticCount before they know whether there are elements; tickets that
    turn out to exceed the tail are given back through dequeueOvercommit. A single
    dequeue is a bulk dequeue of at most one element. Indices are unbounded integers
    here; `Decision64Agrees` and `Recheck64Agrees` relate the two decisions to the code's
    64-bit words. A relaxed or acquire load may return any earlier value of its variable. */
module Tickets {
  import opened Counting
  import Circular

  datatype Claim = Claim(first: nat, count: nat)

  datatype PC =
    | Idle
    | LoadOvercommit(max: nat, tail: nat)
    | LoadCount(max: nat, tail: nat, over: nat)
    | TakeTickets(want: nat, over: nat)              // about to add want to dequeueOptimisticCount
    | LoadTail(want: nat, mine: nat, over: nat)      // holds tickets mine .. mine + want
    | GiveBack(want: nat, got: nat)                  // about to add want - got to dequeueOvercommit
    | TakeHead(got: nat)                             // about to add got to headIndex

  /** `claims` records, in order, the index ranges handed to consumers. */
  datatype State = State(tail: nat, head: nat, optimistic: nat, overcommit: nat, claims: seq<Claim>, threads: seq<PC>)

  /** Number of elements a consumer first thinks it can take; zero if none. */
  function Desired(tail: int, optimistic: int, over: int, max: nat): nat
  {
    Min(Clamp(tail - (optimistic - over)), max)
  }

  /** Number of its tickets that turn out to be good. */
  function Actual(tail: int, mine: int, over: int, want: nat): nat
  {
    Min(Clamp(tail - (mine - over)), want)
  }

  function Min(a: nat, b: nat): nat { if a < b then a else b }

  function Clamp(x: int): nat { if x < 0 then 0 else x }

  /** A consumer's call and the values its loads return: `seen` is the load of this step;
      `enqueued` elements are published by the producer when the thread is out of range. */
  datatype Input = Input(max: nat, seen: nat, enqueued: nat)

  function Goto(s: State, t: nat, pc: PC): State
    requires t < |s.threads|
  {
    s.(threads := s.threads[t := pc])
  }

  /** One atomic step of consumer `t`, or, for any other `t`, the producer's store of a
      larger tailIndex. A load never returns a value from the future. */
  function Step(s: State, t: nat, i: Input): (s': State)
    ensures |s'.threads| == |s.threads| && s'.tail >= s.tail
  {
    if t >= |s.threads| then s.(tail := s.tail + i.enqueued) else
    match s.threads[t]
    case Idle => if i.max == 0 then s else Goto(s, t, LoadOvercommit(i.max, Min(i.seen, s.tail)))
    case LoadOvercommit(max, tail) => Goto(s, t, LoadCount(max, tail, Min(i.seen, s.overcommit)))
    case LoadCount(max, tail, over) =>
      var want := Desired(tail, Min(i.seen, s.optimistic), over, max);
      Goto(s, t, if want > 0 then TakeTickets(want, over) else Idle)
    case TakeTickets(want, over) =>
      Goto(s.(optimistic := s.optimistic + want), t, LoadTail(want, s.optimistic, over))
    case LoadTail(want, mine, over) =>
      var got := Actual(Min(i.seen, s.tail), mine, over, want);
      Goto(s, t, if got < want then GiveBack(want, got) else TakeHead(got))
    case GiveBack(want, got) =>
      Goto(s.(overcommit := s.overcommit + Clamp(want - got)), t, if got > 0 then TakeHead(got) else Idle)
    case TakeHead(got) =>
      Goto(s.(head := s.head + got, claims := s.claims + [Claim(s.head, got)]), t, Idle)
  }

  // ---------------------------------------------------------------------------
  // The inductive invariant

  /** What became of each ticket ever taken: still with thread `t`, good, or given back. */
  datatype Fate = Undecided(t: nat) | Good | Bad

  ghost function Goods(f: seq<Fate>, x: nat): nat
    requires x <= |f|
  {
    if x == 0 then 0 else Goods(f, x - 1) + (if f[x - 1].Good? then 1 else 0)
  }

  ghost function Bads(f: seq<Fate>, x: nat): nat
    requires x <= |f|
  {
    if x == 0 then 0 else Bads(f, x - 1) + (if f[x - 1].Bad? then 1 else 0)
  }

  /** Bad tickets decided but not yet added to dequeueOvercommit. */
  function UnreturnedBy(pc: PC): nat { if pc.GiveBack? then Clamp(pc.want - pc.got) else 0 }

  /** Good tickets not yet turned into a claim. */
  function UnclaimedBy(pc: PC): nat { if pc.GiveBack? || pc.TakeHead? then pc.got else 0 }

  /** Tickets taken and neither claimed nor given back. */
  function InFlightBy(pc: PC): nat
  {
    if pc.LoadTail? then pc.want else UnreturnedBy(pc) + UnclaimedBy(pc)
  }

  ghost function Unreturned(s: State): nat { Sum(s.threads, UnreturnedBy) }
  ghost function Unclaimed(s: State): nat { Sum(s.threads, UnclaimedBy) }
  ghost function InFlight(s: State): nat { Sum(s.threads, InFlightBy) }

  ghost predicate ThreadOk(s: State, f: seq<Fate>, t: nat)
    requires t < |s.threads|
  {
    match s.threads[t]
    case Idle => true
    case LoadOvercommit(_, tail) => tail <= s.tail
    case LoadCount(_, tail, over) => tail <= s.tail && over <= s.overcommit
    case TakeTickets(want, over) => want > 0 && over <= s.overcommit
    case LoadTail(want, mine, over) =>
      && want > 0 && mine + want <= |f|
      && over <= Bads(f, mine)
      && (forall x :: mine <= x < mine + want ==> f[x] == Undecided(t))
    case GiveBack(want, got) => got < want
    case TakeHead(got) => got > 0
  }

  /** A good ticket has enough bad ones before it to lie below the tail. */
  ghost predicate GoodBelowTail(f: seq<Fate>, tail: nat)
  {
    forall x :: 0 <= x < |f| && f[x].Good? ==> x + 1 - Bads(f, x) <= tail
  }

  function End(c: Claim): nat { c.first + c.count }

  /** The claims follow each other from 0 to `head`. */
  ghost predicate ClaimsTile(claims: seq<Claim>, head: nat)
  {
    && head == (if |claims| == 0 then 0 else End(claims[|claims| - 1]))
    && (forall i :: 0 <= i < |claims| ==> claims[i].count > 0)
    && (forall i :: 0 <= i < |claims| ==> StartsAtEnd(claims, i))
  }

  ghost predicate StartsAtEnd(claims: seq<Claim>, i: nat)
    requires i < |claims|
  {
    claims[i].first == (if i == 0 then 0 else End(claims[i - 1]))
  }

  lemma TileExtend(claims: seq<Claim>, head: nat, got: nat)
    requires ClaimsTile(claims, head) && got > 0
    ensures ClaimsTile(claims + [Claim(head, got)], head + got)
  {
    var longer := claims + [Claim(head, got)];
    forall i | 0 <= i < |longer| ensures StartsAtEnd(longer, i) {
      if i < |claims| { assert StartsAtEnd(claims, i); }
    }
  }

  ghost predicate InvWith(s: State, f: seq<Fate>)
  {
    && |f| == s.optimistic
    && s.overcommit + Unreturned(s) == Bads(f, |f|)
    && s.head + Unclaimed(s) == Goods(f, |f|)
    && s.optimistic == s.head + s.overcommit + InFlight(s)
    && GoodBelowTail(f, s.tail)
    && ClaimsTile(s.claims, s.head)
    && (forall t :: 0 <= t < |s.threads| ==> ThreadOk(s, f, t))
  }

  ghost predicate Inv(s: State) { exists f :: InvWith(s, f) }

  // ---------------------------------------------------------------------------
  // Counting tickets

  lemma {:induction false} GoodsAndBads(f: seq<Fate>, x: nat)
    requires x <= |f|
    ensures Goods(f, x) + Bads(f, x) <= x
  {
    if x > 0 { GoodsAndBads(f, x - 1); }
  }

  /** The counting argument: there are never more good tickets than elements. */
  lemma {:induction false} GoodsBounded(f: seq<Fate>, x: nat, tail: nat)
    requires x <= |f| && GoodBelowTail(f, tail)
    ensures Goods(f, x) <= tail
  {
    if x > 0 {
      GoodsBounded(f, x - 1, tail);
      GoodsAndBads(f, x - 1);
    }
  }

  lemma {:induction false} BadsMonotone(f: seq<Fate>, x: nat, y: nat)
    requires x <= y <= |f|
    ensures Bads(f, x) <= Bads(f, y)
  {
    if x < y { BadsMonotone(f, x, y - 1); }
  }

  lemma {:induction false} CountsOfPrefix(f: seq<Fate>, g: seq<Fate>, x: nat)
    requires x <= |f|
    ensures Goods(f + g, x) == Goods(f, x) && Bads(f + g, x) == Bads(f, x)
  {
    if x > 0 { CountsOfPrefix(f, g, x - 1); }
  }

  ghost function Taken(f: seq<Fate>, t: nat, want: nat): seq<Fate>
  {
    f + seq(want, i => Undecided(t))
  }

  lemma {:induction false} CountsAfterTaking(f: seq<Fate>, t: nat, want: nat, x: nat)
    requires |f| <= x <= |f| + want
    ensures Goods(Taken(f, t, want), x) == Goods(f, |f|) && Bads(Taken(f, t, want), x) == Bads(f, |f|)
  {
    if x == |f| { CountsOfPrefix(f, seq(want, i => Undecided(t)), x); }
    else { CountsAfterTaking(f, t, want, x - 1); }
  }

  /** Tickets mine .. mine + got become good, the rest up to mine + want bad. */
  ghost function Decided(f: seq<Fate>, mine: nat, got: nat, want: nat): seq<Fate>
  {
    seq(|f|, i requires 0 <= i < |f| =>
      if mine <= i < mine + got then Good else if mine + got <= i < mine + want then Bad else f[i])
  }

  lemma {:induction false} CountsAfterDeciding(f: seq<Fate>, t: nat, mine: nat, got: nat, want: nat, x: nat)
    requires got <= want && mine + want <= |f| && x <= |f|
    requires forall i :: mine <= i < mine + want ==> f[i] == Undecided(t)
    ensures Goods(Decided(f, mine, got, want), x) == Goods(f, x) + Min(Clamp(x - mine), got)
    ensures Bads(Decided(f, mine, got, want), x) == Bads(f, x) + Min(Clamp(x - (mine + got)), want - got)
  {
    if x > 0 { CountsAfterDeciding(f, t, mine, got, want, x - 1); }
  }

  // ---------------------------------------------------------------------------
  // Every step keeps the invariant

  lemma Sums(s: State, t: nat, pc: PC)
    requires t < |s.threads|
    ensures var threads' := s.threads[t := pc];
            && Sum(threads', UnreturnedBy) == Unreturned(s) - UnreturnedBy(s.threads[t]) + UnreturnedBy(pc)
            && Sum(threads', UnclaimedBy) == Unclaimed(s) - UnclaimedBy(s.threads[t]) + UnclaimedBy(pc)
            && Sum(threads', InFlightBy) == InFlight(s) - InFlightBy(s.threads[t]) + InFlightBy(pc)
  {
    SumUpdate(s.threads, t, pc, UnreturnedBy);
    SumUpdate(s.threads, t, pc, UnclaimedBy);
    SumUpdate(s.threads, t, pc, InFlightBy);
  }

  /** Other threads' facts survive: counters only grow and their tickets stay theirs. */
  lemma OthersOk(s: State, f: seq<Fate>, s': State, f': seq<Fate>, t: nat)
    requires forall u :: 0 <= u < |s.threads| ==> ThreadOk(s, f, u)
    requires |s'.threads| == |s.threads| && s.tail <= s'.tail && s.overcommit <= s'.overcommit && |f| <= |f'|
    requires forall x :: 0 <= x < |f| ==> f'[x] == f[x] || f[x] == Undecided(t)
    requires forall x :: 0 <= x <= |f| ==> Bads(f, x) <= Bads(f', x)
    ensures forall u :: 0 <= u < |s.threads| && u != t && s'.threads[u] == s.threads[u] ==> ThreadOk(s', f', u)
  {
    forall u | 0 <= u < |s.threads| && u != t && s'.threads[u] == s.threads[u] ensures ThreadOk(s', f', u) {
      assert ThreadOk(s, f, u);
    }
  }

  lemma StepTake(s: State, f: seq<Fate>, t: nat, i: Input)
    requires InvWith(s, f) && t < |s.threads| && s.threads[t].TakeTickets?
    ensures InvWith(Step(s, t, i), Taken(f, t, s.threads[t].want))
  {
    var TakeTickets(want, over) := s.threads[t];
    assert ThreadOk(s, f, t);
    var s' := Step(s, t, i);
    var f' := Taken(f, t, want);
    Sums(s, t, LoadTail(want, s.optimistic, over));
    CountsAfterTaking(f, t, want, |f'|);
    forall x | 0 <= x <= |f| ensures Bads(f', x) == Bads(f, x) { CountsOfPrefix(f, seq(want, k => Undecided(t)), x); }
    OthersOk(s, f, s', f', t);
    assert ThreadOk(s', f', t);
  }

  lemma StepDecide(s: State, f: seq<Fate>, t: nat, i: Input)
    requires InvWith(s, f) && t < |s.threads| && s.threads[t].LoadTail?
    ensures var LoadTail(want, mine, over) := s.threads[t];
            InvWith(Step(s, t, i), Decided(f, mine, Actual(Min(i.seen, s.tail), mine, over, want), want))
  {
    var LoadTail(want, mine, over) := s.threads[t];
    assert ThreadOk(s, f, t);
    var got := Actual(Min(i.seen, s.tail), mine, over, want);
    var s' := Step(s, t, i);
    var f' := Decided(f, mine, got, want);
    Sums(s, t, s'.threads[t]);
    CountsAfterDeciding(f, t, mine, got, want, |f|);
    forall x | 0 <= x <= |f| ensures Bads(f', x) >= Bads(f, x) { CountsAfterDeciding(f, t, mine, got, want, x); }
    OthersOk(s, f, s', f', t);
    assert s'.threads == s.threads[t := s'.threads[t]];
    assert ThreadOk(s', f', t);
    assert GoodBelowTail(f', s.tail) by { DecidedBelowTail(s, f, f', mine, got, want, over); }
  }

  lemma DecidedBelowTail(s: State, f: seq<Fate>, f': seq<Fate>, mine: nat, got: nat, want: nat, over: nat)
    requires GoodBelowTail(f, s.tail) && got <= want && mine + want <= |f| && over <= Bads(f, mine)
    requires got > 0 ==> mine + got - over <= s.tail
    requires f' == Decided(f, mine, got, want)
    requires forall x :: 0 <= x <= |f| ==> Bads(f', x) >= Bads(f, x)
    ensures GoodBelowTail(f', s.tail)
  {
    forall x | 0 <= x < |f'| && f'[x].Good? ensures x + 1 - Bads(f', x) <= s.tail {
      if mine <= x < mine + got { BadsMonotone(f, mine, x); }
    }
  }

  lemma StepClaim(s: State, f: seq<Fate>, t: nat, i: Input)
    requires InvWith(s, f) && t < |s.threads| && s.threads[t].TakeHead?
    ensures InvWith(Step(s, t, i), f)
  {
    var s' := Step(s, t, i);
    assert ThreadOk(s, f, t);
    OthersOk(s, f, s', f, t);
    Sums(s, t, Idle);
    TileExtend(s.claims, s.head, s.threads[t].got);
  }

  lemma StepGiveBack(s: State, f: seq<Fate>, t: nat, i: Input)
    requires InvWith(s, f) && t < |s.threads| && s.threads[t].GiveBack?
    ensures InvWith(Step(s, t, i), f)
  {
    var s' := Step(s, t, i);
    assert ThreadOk(s, f, t);
    OthersOk(s, f, s', f, t);
    Sums(s, t, s'.threads[t]);
  }

  /** Loads, the start of a dequeue, and the producer's publication. */
  lemma StepLoad(s: State, f: seq<Fate>, t: nat, i: Input)
    requires InvWith(s, f)
    requires t < |s.threads| ==> s.threads[t].Idle? || s.threads[t].LoadOvercommit? || s.threads[t].LoadCount?
    ensures InvWith(Step(s, t, i), f)
  {
    var s' := Step(s, t, i);
    OthersOk(s, f, s', f, t);
    if t < |s.threads| {
      assert ThreadOk(s, f, t);
      Sums(s, t, s'.threads[t]);
      assert s'.threads == s.threads[t := s'.threads[t]];
      assert ThreadOk(s', f, t);
    }
  }

  lemma StepKeeps(s: State, t: nat, i: Input)
    requires Inv(s)
    ensures Inv(Step(s, t, i))
  {
    var f :| InvWith(s, f);
    if t < |s.threads| && s.threads[t].TakeTickets? {
      StepTake(s, f, t, i);
    } else if t < |s.threads| && s.threads[t].LoadTail? {
      StepDecide(s, f, t, i);
    } else if t < |s.threads| && s.threads[t].TakeHead? {
      StepClaim(s, f, t, i);
    } else if t < |s.threads| && s.threads[t].GiveBack? {
      StepGiveBack(s, f, t, i);
    } else {
      StepLoad(s, f, t, i);
    }
  }

  // ---------------------------------------------------------------------------
  // Runs

  datatype Action = Action(thread: nat, input: Input)

  ghost function Run(s: State, actions: seq<Action>): (s': State)
    ensures |s'.threads| == |s.threads|
  {
    if |actions| == 0 then s else
    var last := actions[|actions| - 1];
    Step(Run(s, actions[..|actions| - 1]), last.thread, last.input)
  }

  ghost predicate Init(s: State)
  {
    && s.tail == s.head == s.optimistic == s.overcommit == 0 && s.claims == []
    && (forall t :: 0 <= t < |s.threads| ==> s.threads[t] == Idle)
  }

  lemma {:induction false} RunInvariant(s: State, actions: seq<Action>)
    requires Init(s)
    ensures Inv(Run(s, actions))
  {
    if |actions| == 0 {
      SumZero(s.threads, UnreturnedBy);
      SumZero(s.threads, UnclaimedBy);
      SumZero(s.threads, InFlightBy);
      assert InvWith(s, []);
    } else {
      RunInvariant(s, actions[..|actions| - 1]);
      var last := actions[|actions| - 1];
      StepKeeps(Run(s, actions[..|actions| - 1]), last.thread, last.input);
    }
  }

  /** Conservation: every ticket ever taken is a claimed element, a ticket given back, or
      in flight. */
  lemma TicketConservation(s0: State, actions: seq<Action>)
    requires Init(s0)
    ensures var s := Run(s0, actions);
            s.optimistic == s.head + s.overcommit + InFlight(s)
  {
    RunInvariant(s0, actions);
  }

  ghost predicate Claimed(claims: seq<Claim>, x: nat)
  {
    exists i :: 0 <= i < |claims| && claims[i].first <= x < End(claims[i])
  }

  /** Whatever mix of single and bulk dequeues runs, and however old the loaded values
      are, the claimed ranges are non-empty, follow each other without gap or overlap,
      and end at headIndex, which never passes tailIndex. */
  lemma ClaimsDisjointBelowTail(s0: State, actions: seq<Action>)
    requires Init(s0)
    ensures var s := Run(s0, actions);
            && s.head <= s.tail
            && (forall i :: 0 <= i < |s.claims| ==> s.claims[i].count > 0 && End(s.claims[i]) <= s.head)
            && (forall i, j :: 0 <= i < j < |s.claims| ==> End(s.claims[i]) <= s.claims[j].first)
            && (forall x: nat :: Claimed(s.claims, x) <==> x < s.head)
  {
    RunInvariant(s0, actions);
    var s := Run(s0, actions);
    var f :| InvWith(s, f);
    GoodsBounded(f, |f|, s.tail);
    forall i, j | 0 <= i < j < |s.claims| ensures End(s.claims[i]) <= s.claims[j].first {
      TileOrder(s.claims, s.head, i, j);
    }
    forall x: nat | x < s.head ensures Claimed(s.claims, x) {
      TileCovers(s.claims, s.head, x, |s.claims| - 1);
    }
    assert forall i :: 0 <= i < |s.claims| - 1 ==> End(s.claims[i]) <= s.claims[|s.claims| - 1].first;
  }

  lemma {:induction false} TileOrder(claims: seq<Claim>, head: nat, i: nat, j: nat)
    requires ClaimsTile(claims, head) && i < j < |claims|
    ensures End(claims[i]) <= claims[j].first
  {
    assert StartsAtEnd(claims, j);
    if i + 1 < j { TileOrder(claims, head, i, j - 1); }
  }

  lemma {:induction false} TileCovers(claims: seq<Claim>, head: nat, x: nat, last: nat)
    requires ClaimsTile(claims, head) && last < |claims| && x < End(claims[last])
    ensures Claimed(claims, x)
  {
    assert StartsAtEnd(claims, last);
    if x < claims[last].first { TileCovers(claims, head, x, last - 1); }
  }

  /** The assertion `overcommit <= myDequeueCount`. */
  lemma OvercommitBelowTicket(s0: State, actions: seq<Action>, t: nat)
    requires Init(s0)
    requires t < |s0.threads| && Run(s0, actions).threads[t].LoadTail?
    ensures var pc := Run(s0, actions).threads[t]; pc.over <= pc.mine
  {
    RunInvariant(s0, actions);
    var s := Run(s0, actions);
    var f :| InvWith(s, f);
    assert ThreadOk(s, f, t);
    GoodsAndBads(f, s.threads[t].mine);
  }

  /** Steps of thread `t` alone, every load returning the current value. */
  ghost function Alone(s: State, t: nat, max: nat, steps: nat): State
  {
    if steps == 0 then s else
    var b := Alone(s, t, max, steps - 1);
    Step(b, t, Input(max, b.tail + b.overcommit + b.optimistic, 0))
  }

  /** Three loads and nothing if the sub-queue is empty; otherwise six steps to a claim of
      min(max, size) elements from the head. */
  ghost predicate ServesAlone(s: State, t: nat, max: nat)
    requires t < |s.threads|
  {
    if s.head == s.tail then Alone(s, t, max, 3) == s
    else
      var n := Min(max, Clamp(s.tail - s.head));
      && n > 0
      && Alone(s, t, max, 6)
         == s.(optimistic := s.optimistic + n, head := s.head + n, claims := s.claims + [Claim(s.head, n)])
  }

  /** With no other dequeue in flight, a dequeue fails (after its three loads) exactly
      when the sub-queue is empty; otherwise six steps claim min(max, size) elements
      from the head. */
  lemma AloneFailsOnlyWhenEmpty(s0: State, actions: seq<Action>, t: nat, max: nat)
    requires Init(s0) && t < |s0.threads| && max > 0
    requires forall u :: 0 <= u < |s0.threads| ==> Run(s0, actions).threads[u].Idle?
    ensures ServesAlone(Run(s0, actions), t, max)
  {
    TicketConservation(s0, actions);
    ClaimsDisjointBelowTail(s0, actions);
    var s := Run(s0, actions);
    SumZero(s.threads, InFlightBy);
    AloneFrom(s, t, max);
  }

  /** Six steps from a state in which every ticket is accounted for. */
  lemma AloneFrom(s: State, t: nat, max: nat)
    requires t < |s.threads| && s.threads[t].Idle? && max > 0 && s.optimistic == s.head + s.overcommit && s.head <= s.tail
    ensures ServesAlone(s, t, max)
  {
    assert s.threads[t := Idle] == s.threads;
    assert Alone(s, t, max, 0) == s;
    var s1 := Alone(s, t, max, 1);
    assert s1 == Goto(s, t, LoadOvercommit(max, s.tail));
    var s2 := Alone(s, t, max, 2);
    assert s2 == Goto(s, t, LoadCount(max, s.tail, s.overcommit));
    var n := Min(max, Clamp(s.tail - s.head));
    var s3 := Alone(s, t, max, 3);
    if s.head < s.tail {
      assert s3 == Goto(s, t, TakeTickets(n, s.overcommit));
      var s4 := Alone(s, t, max, 4);
      assert s4 == Goto(s.(optimistic := s.optimistic + n), t, LoadTail(n, s.optimistic, s.overcommit));
      var s5 := Alone(s, t, max, 5);
      assert s5 == Goto(s.(optimistic := s.optimistic + n), t, TakeHead(n));
    }
  }

  // ---------------------------------------------------------------------------
  // The decisions on 64-bit words

  /** The first decision of dequeue_bulk, as computed. */
  function Desired64(tail: nat, optimistic: nat, over: nat, max: nat): nat
  {
    var desired := Circular.Wrap(tail - Circular.Wrap(optimistic - over));
    if Circular.CircularLessThan(0, desired) then Min(desired, max) else 0
  }

  /** The second decision of dequeue_bulk, as computed. */
  function Actual64(tail: nat, mine: nat, over: nat, want: nat): nat
  {
    var actual := Circular.Wrap(tail - Circular.Wrap(mine - over));
    if Circular.CircularLessThan(0, actual) then Min(want, actual) else 0
  }

  /** A distance below 2^63 is read correctly from its word. */
  lemma DistanceWord(d: int)
    requires -Circular.HALF < d < Circular.HALF
    ensures Circular.CircularLessThan(0, Circular.Wrap(d)) <==> d > 0
    ensures d >= 0 ==> Circular.Wrap(d) == d
  {
    if d >= 0 { Circular.ModUnique(d, 0, d, Circular.WORD); } else { Circular.ModUnique(d, -1, d + Circular.WORD, Circular.WORD); }
  }

  /** On words, the first decision is the one on the unbounded indices as long as the
      distance stays below 2^63; so is the test of the single dequeue. */
  lemma Decision64Agrees(tail: nat, optimistic: nat, over: nat, max: nat)
    requires -Circular.HALF < tail - (optimistic - over) < Circular.HALF
    ensures Desired64(Circular.Wrap(tail), Circular.Wrap(optimistic), Circular.Wrap(over), max)
            == Desired(tail, optimistic, over, max)
    ensures Circular.CircularLessThan(Circular.Wrap(Circular.Wrap(optimistic) - Circular.Wrap(over)), Circular.Wrap(tail))
            <==> Desired(tail, optimistic, over, 1) == 1
  {
    Circular.WrapDifference(optimistic, over);
    Circular.WrapDifference(tail, optimistic - over);
    DistanceWord(tail - (optimistic - over));
    Circular.CircularLessThanAgrees(optimistic - over, tail);
  }

  lemma Recheck64Agrees(tail: nat, mine: nat, over: nat, want: nat)
    requires -Circular.HALF < tail - (mine - over) < Circular.HALF
    ensures Actual64(Circular.Wrap(tail), Circular.Wrap(mine), Circular.Wrap(over), want) == Actual(tail, mine, over, want)
    ensures Circular.CircularLessThan(Circular.Wrap(Circular.Wrap(mine) - Circular.Wrap(over)), Circular.Wrap(tail))
            <==> Actual(tail, mine, over, 1) == 1
  {
    Circular.WrapDifference(mine, over);
    Circular.WrapDifference(tail, mine - over);
    DistanceWord(tail - (mine - over));
    Circular.CircularLessThanAgrees(mine - over, tail);
  }

  // ---------------------------------------------------------------------------
  // The outcome of a call

  /** A step of the thread under observation: the states before and after it. */
  datatype Seen = Seen(before: State, input: Input, after: State)

  /** The steps that thread t makes itself in a run. */
  ghost function Own(s: State, actions: seq<Action>, t: nat): seq<Seen>
  {
    if |actions| == 0 then [] else
    var n := |actions| - 1;
    Own(s, actions[..n], t)
      + (if actions[n].thread == t then [Seen(Run(s, actions[..n]), actions[n].input, Run(s, actions))] else [])
  }

  /** `actions` begin a dequeue of up to max elements by thread t in s. */
  ghost predicate Begun(s: State, actions: seq<Action>, t: nat, max: nat)
  {
    && t < |s.threads| && s.threads[t].Idle? && |actions| > 0
    && actions[0].thread == t && actions[0].input.max == max > 0
  }

  /** A whole dequeue, with steps of the others in between. */
  ghost predicate IsCall(s: State, actions: seq<Action>, t: nat, max: nat)
  {
    && Begun(s, actions, t, max) && Run(s, actions).threads[t].Idle?
    && (forall k :: 0 < k < |actions| ==> !Run(s, actions[..k]).threads[t].Idle?)
  }

  /** The values loaded: what was asked for, never from the future. */
  function TailLoaded(o: Seen): nat { Min(o.input.seen, o.before.tail) }
  function OverLoaded(o: Seen): nat { Min(o.input.seen, o.before.overcommit) }
  function CountLoaded(o: Seen): nat { Min(o.input.seen, o.before.optimistic) }

  /** The ticket j places after `first` is below the tail, by the overcommit loaded. */
  predicate Below(first: nat, j: nat, over: nat, tail: nat) { first - over + j < tail }

  /** Of the `max` tickets from `first`, those below the tail are the first n. */
  ghost predicate FirstBelow(n: nat, max: nat, first: nat, over: nat, tail: nat)
  {
    n <= max && forall j: nat :: j < max ==> (j < n <==> Below(first, j, over, tail))
  }

  /** Of the next max tickets, those that seem to be below the tail are the first `want`. */
  ghost predicate Wanted(o: seq<Seen>, max: nat, want: nat)
    requires |o| >= 3
  {
    FirstBelow(want, max, CountLoaded(o[2]), OverLoaded(o[1]), TailLoaded(o[0]))
  }

  /** Of the tickets taken, those below the tail are the first `got`. */
  ghost predicate Served(o: seq<Seen>, want: nat, got: nat)
    requires |o| >= 5
  {
    && o[3].after.optimistic == o[3].before.optimistic + want
    && FirstBelow(got, want, o[3].before.optimistic, OverLoaded(o[1]), TailLoaded(o[4]))
  }

  ghost predicate SoFar(s: State, actions: seq<Action>, t: nat, max: nat)
    requires t < |s.threads|
  {
    var o := Own(s, actions, t);
    match Run(s, actions).threads[t]
    case Idle => false
    case LoadOvercommit(m, tail) => |o| == 1 && m == max && tail == TailLoaded(o[0])
    case LoadCount(m, tail, over) => |o| == 2 && m == max && tail == TailLoaded(o[0]) && over == OverLoaded(o[1])
    case TakeTickets(want, over) => |o| == 3 && over == OverLoaded(o[1]) && want > 0 && Wanted(o, max, want)
    case LoadTail(want, mine, over) =>
      && |o| == 4 && over == OverLoaded(o[1]) && want > 0 && Wanted(o, max, want)
      && mine == o[3].before.optimistic && o[3].after.optimistic == mine + want
    case GiveBack(want, got) => |o| == 5 && want > 0 && Wanted(o, max, want) && Served(o, want, got) && got < want
    case TakeHead(got) =>
      got > 0 && exists want :: |o| == (if got < want then 6 else 5) && Wanted(o, max, want) && Served(o, want, got) && GaveBack(o, want, got)
  }

  /** The tickets that are no good are given back. */
  ghost predicate GaveBack(o: seq<Seen>, want: nat, got: nat)
  {
    got < want ==> |o| >= 6 && o[5].after.overcommit == o[5].before.overcommit + (want - got)
  }

  /** A call that wants nothing changes nothing; otherwise it claims as many elements from the
      head as it has good tickets, none if it has none. */
  ghost predicate Outcome(o: seq<Seen>, max: nat)
  {
    |o| >= 3
    && exists want :: Wanted(o, max, want)
         && (if want == 0 then |o| == 3
             else |o| >= 6 && exists got :: Served(o, want, got) && GaveBack(o, want, got) && Claims(o, want, got))
  }

  ghost predicate Claims(o: seq<Seen>, want: nat, got: nat)
    requires |o| >= 6
  {
    if got == 0 then |o| == 6
    else
      && |o| == (if got < want then 7 else 6)
      && var last := o[|o| - 1]; last.after.claims == last.before.claims + [Claim(last.before.head, got)]
  }

  /** A step of another thread, or of the producer. */
  lemma OtherStep(s: State, actions: seq<Action>, t: nat, max: nat)
    requires t < |s.threads| && |actions| > 1 && actions[|actions| - 1].thread != t && SoFar(s, actions[..|actions| - 1], t, max)
    ensures SoFar(s, actions, t, max)
  {
    var n := |actions| - 1;
    OtherStays(Run(s, actions[..n]), t, actions[n]);
    assert Own(s, actions, t) == Own(s, actions[..n], t);
  }

  lemma OtherStays(s: State, t: nat, a: Action)
    requires t < |s.threads| && a.thread != t
    ensures Step(s, a.thread, a.input).threads[t] == s.threads[t]
  {
  }

  /** The steps up to taking tickets. */
  lemma AskStep(s: State, actions: seq<Action>, t: nat, max: nat)
    requires t < |s.threads| && |actions| > 1 && actions[|actions| - 1].thread == t && SoFar(s, actions[..|actions| - 1], t, max)
    requires var pc := Run(s, actions[..|actions| - 1]).threads[t]; pc.LoadOvercommit? || pc.LoadCount? || pc.TakeTickets?
    ensures if Run(s, actions).threads[t].Idle? then Outcome(Own(s, actions, t), max) else SoFar(s, actions, t, max)
  {
    var n := |actions| - 1;
    var r, o := Run(s, actions[..n]), Own(s, actions, t);
    if r.threads[t].LoadCount? {
      var want := Desired(r.threads[t].tail, CountLoaded(o[2]), r.threads[t].over, max);
      assert Wanted(o, max, want);
    }
  }

  /** The steps from the second look at the tail. */
  lemma ClaimStep(s: State, actions: seq<Action>, t: nat, max: nat)
    requires t < |s.threads| && |actions| > 1 && actions[|actions| - 1].thread == t && SoFar(s, actions[..|actions| - 1], t, max)
    requires var pc := Run(s, actions[..|actions| - 1]).threads[t]; pc.LoadTail? || pc.GiveBack? || pc.TakeHead?
    ensures if Run(s, actions).threads[t].Idle? then Outcome(Own(s, actions, t), max) else SoFar(s, actions, t, max)
  {
    var n := |actions| - 1;
    var r, o := Run(s, actions[..n]), Own(s, actions, t);
    match r.threads[t]
    case LoadTail(want, mine, over) =>
      var got := Actual(TailLoaded(o[4]), mine, over, want);
      assert Wanted(o, max, want) && Served(o, want, got) && GaveBack(o, want, want);
    case GiveBack(want, got) =>
      assert Wanted(o, max, want) && Served(o, want, got) && GaveBack(o, want, got);
    case TakeHead(got) =>
      var b := Own(s, actions[..n], t);
      var want :| |b| == (if got < want then 6 else 5) && Wanted(b, max, want) && Served(b, want, got) && GaveBack(b, want, got);
      assert Wanted(o, max, want) && Served(o, want, got) && GaveBack(o, want, got) && Claims(o, want, got);
  }

  lemma {:induction false} CallSoFar(s: State, actions: seq<Action>, t: nat, max: nat)
    requires Begun(s, actions, t, max) && forall k :: 0 < k <= |actions| ==> !Run(s, actions[..k]).threads[t].Idle?
    ensures SoFar(s, actions, t, max)
  {
    var n := |actions| - 1;
    if n == 0 {
      FirstStep(s, actions, t, max);
    } else {
      assert actions[..|actions|] == actions;
      forall k | 0 < k <= n ensures actions[..n][..k] == actions[..k] {}
      CallSoFar(s, actions[..n], t, max);
      CallStep(s, actions, t, max);
    }
  }

  lemma FirstStep(s: State, actions: seq<Action>, t: nat, max: nat)
    requires Begun(s, actions, t, max) && |actions| == 1
    ensures SoFar(s, actions, t, max)
  {
    assert Run(s, actions[..0]) == s;
  }

  lemma CallStep(s: State, actions: seq<Action>, t: nat, max: nat)
    requires t < |s.threads| && |actions| > 1 && SoFar(s, actions[..|actions| - 1], t, max)
    ensures if Run(s, actions).threads[t].Idle? then Outcome(Own(s, actions, t), max) else SoFar(s, actions, t, max)
  {
    var n := |actions| - 1;
    var pc := Run(s, actions[..n]).threads[t];
    if actions[n].thread != t { OtherStep(s, actions, t, max); }
    else if pc.LoadOvercommit? || pc.LoadCount? || pc.TakeTickets? { AskStep(s, actions, t, max); }
    else { ClaimStep(s, actions, t, max); }
  }

  /** Whatever the others do and however old the values loaded are: a dequeue takes a ticket for
      every one of the next max that seems to be below the tail, and claims an element for every
      ticket that is below the tail when it has taken it; it gives back the others. So it fails
      only if no ticket was below the tail it loaded, before or after. */
  lemma DequeueOutcome(s: State, actions: seq<Action>, t: nat, max: nat)
    requires IsCall(s, actions, t, max)
    ensures Outcome(Own(s, actions, t), max)
  {
    var n := |actions| - 1;
    if n == 0 {
      FirstStep(s, actions, t, max);
    } else {
      forall k | 0 < k <= n ensures actions[..n][..k] == actions[..k] {}
      CallSoFar(s, actions[..n], t, max);
      CallStep(s, actions, t, max);
    }
  }
}
