/** The blocking queue: a concurrent queue with a lightweight semaphore that counts its
    elements. The semaphore is a signed counter in front of a kernel semaphore. The inner
    queue is a count of elements: enqueue adds to it, a try_dequeue(_bulk) takes some of
    what is there, possibly nothing. One step is one access to one of the three. Single
    operations are bulk operations of one element: tryWait is tryWaitMany(1), wait is
    waitMany(1). */
module BlockingQueue {
  import opened Counting

  const SPINS := 10000

  datatype PC =
    | Idle
    | Signal(n: nat)                                  // elements are in; about to add n to m_count
    | Post(n: nat)                                    // n sem_post calls to go
    | TryLoad(max: nat, wait: bool, base: nat)        // tryWaitMany: about to load m_count
    | TryCas(max: nat, wait: bool, base: nat, seen: int)
    | SpinLoad(max: nat, spin: nat)                   // waitManyWithPartialSpinning
    | SpinCas(max: nat, spin: nat, seen: int)
    | Subtract(max: nat)                              // about to subtract 1 from m_count
    | Wait(max: nat)                                  // in the kernel semaphore's wait
    | Retry(need: nat, got: nat, max: nat, wait: bool)// holds `need` permits of `got`; dequeuing from the inner queue

  /** A finished acquisition: the call it was made for, the permits it got, and m_count as the
      last access of the acquisition found it. */
  datatype Grant = Grant(call: Call, got: nat, seen: int)

  /** `signalled` and `acquired` record the permits added by signal and granted so far,
      `calls` the call each thread made last, `grants` all finished acquisitions. */
  datatype State = State(count: int, kernel: nat, inner: nat, initial: nat, signalled: nat, acquired: nat, threads: seq<PC>,
                         calls: seq<Call>, grants: seq<Grant>)

  /** The call an idle thread makes, and the outcome of what is decided elsewhere: whether
      an enqueue finds memory, a weak CAS fails for no reason, how much a dequeue finds. */
  datatype Input = Input(call: Call, ok: bool, found: nat)
  datatype Call = Enqueue(n: nat) | Dequeue(max: nat, wait: bool)

  function Goto(s: State, t: nat, pc: PC): State
    requires t < |s.threads|
  {
    s.(threads := s.threads[t := pc])
  }

  function Positive(x: int): nat { if x > 0 then x else 0 }

  function Min(a: nat, b: nat): nat { if a < b then a else b }

  /** What tryWaitMany takes from a positive count. */
  function Take(seen: int, max: nat): nat { if seen > max then max else Positive(seen) }

  /** After an acquisition of `got` permits: dequeue that many, or return 0. */
  function Dequeuing(got: nat, max: nat, wait: bool): PC
  {
    if got == 0 then Idle else Retry(got, got, max, wait)
  }

  /** tryWaitMany returns `got` (on top of `base` already held by a waiting caller). */
  function TryResult(got: nat, max: nat, wait: bool, base: nat): PC
  {
    if base == 0 && got == 0 && wait && max > 0 then SpinLoad(max, SPINS)
    else Dequeuing(base + got, base + max, wait)
  }

  /** One permit acquired the hard way; the rest, greedily. */
  function AfterOne(max: nat): PC
  {
    if max > 1 then TryLoad(max - 1, true, 1) else Dequeuing(1, max, true)
  }

  /** One access to shared memory. */
  function Access(s: State, t: nat, i: Input): (s': State)
    ensures |s'.threads| == |s.threads| && s'.calls == s.calls && s'.grants == s.grants
  {
    if t >= |s.threads| then s else
    match s.threads[t]
    case Idle =>
      (match i.call
       case Enqueue(n) => if i.ok then Goto(s.(inner := s.inner + n), t, Signal(n)) else s
       case Dequeue(max, wait) => Goto(s, t, TryLoad(max, wait, 0)))
    case Signal(n) =>
      var release := Min(Positive(-s.count), n);
      Goto(s.(count := s.count + n, signalled := s.signalled + n), t, if release > 0 then Post(release) else Idle)
    case Post(n) => Goto(s.(kernel := s.kernel + 1), t, if n > 1 then Post(n - 1) else Idle)
    case TryLoad(max, wait, base) =>
      Goto(s, t, if s.count > 0 then TryCas(max, wait, base, s.count) else TryResult(0, max, wait, base))
    case TryCas(max, wait, base, seen) =>
      if s.count == seen && i.ok then
        var got := Take(seen, max);
        Goto(s.(count := s.count - got, acquired := s.acquired + got), t, TryResult(got, max, wait, base))
      else Goto(s, t, if s.count > 0 then TryCas(max, wait, base, s.count) else TryResult(0, max, wait, base))
    case SpinLoad(max, spin) =>
      Goto(s, t, if spin == 0 then Subtract(max) else if s.count > 0 then SpinCas(max, spin - 1, s.count) else SpinLoad(max, spin - 1))
    case SpinCas(max, spin, seen) =>
      if s.count == seen then
        var got := Take(seen, max);
        Goto(s.(count := s.count - got, acquired := s.acquired + got), t, Dequeuing(got, max, true))
      else Goto(s, t, SpinLoad(max, spin))
    case Subtract(max) =>
      if s.count > 0 then Goto(s.(count := s.count - 1, acquired := s.acquired + 1), t, AfterOne(max))
      else Goto(s.(count := s.count - 1), t, Wait(max))
    case Wait(max) =>
      if s.kernel == 0 then s else Goto(s.(kernel := s.kernel - 1, acquired := s.acquired + 1), t, AfterOne(max))
    case Retry(need, got, max, wait) =>
      var k := Min(Min(i.found, need), s.inner);
      Goto(s.(inner := s.inner - k), t, if k < need then Retry(need - k, got, max, wait) else Idle)
  }

  /** In the semaphore, on the way to some permits. */
  predicate Acquiring(pc: PC)
  {
    pc.TryLoad? || pc.TryCas? || pc.SpinLoad? || pc.SpinCas? || pc.Subtract? || pc.Wait?
  }

  /** A step: one access, with the call recorded when it begins and the permits it got when
      its acquisition is over. */
  function Step(s: State, t: nat, i: Input): (s': State)
    ensures |s'.threads| == |s.threads|
  {
    var s' := Access(s, t, i);
    if t >= |s.threads| || t >= |s.calls| then s'
    else if s.threads[t].Idle? then s'.(calls := s.calls[t := i.call])
    else if Acquiring(s.threads[t]) && !Acquiring(s'.threads[t]) then
      s'.(grants := s.grants + [Grant(s.calls[t], if s'.threads[t].Retry? then s'.threads[t].got else 0, s.count)])
    else s'
  }

  // ---------------------------------------------------------------------------
  // The invariant

  function UnsignalledBy(pc: PC): nat { if pc.Signal? then pc.n else 0 }
  function PostsBy(pc: PC): nat { if pc.Post? then pc.n else 0 }
  function WaitingBy(pc: PC): nat { if pc.Wait? then 1 else 0 }
  function HeldBy(pc: PC): nat
  {
    if pc.Retry? then pc.need else if pc.TryLoad? || pc.TryCas? then pc.base else 0
  }

  ghost function Unsignalled(s: State): nat { Sum(s.threads, UnsignalledBy) }
  ghost function Posts(s: State): nat { Sum(s.threads, PostsBy) }
  ghost function Waiting(s: State): nat { Sum(s.threads, WaitingBy) }
  ghost function Held(s: State): nat { Sum(s.threads, HeldBy) }

  ghost predicate PcOk(pc: PC)
  {
    match pc
    case Idle => true
    case Signal(_) => true
    case Post(n) => n > 0
    case TryLoad(max, wait, base) => base == 0 || (base == 1 && wait)
    case TryCas(max, wait, base, seen) => (base == 0 || (base == 1 && wait)) && seen > 0
    case SpinLoad(max, _) => max > 0
    case SpinCas(max, _, seen) => max > 0 && seen > 0
    case Subtract(max) => max > 0
    case Wait(max) => max > 0
    case Retry(need, got, max, wait) => 0 < need <= got <= max
  }

  /** Waiters committed to the kernel semaphore are matched by permits in it, posts on
      their way, or the negative part of the counter. */
  ghost predicate WaitersMatched(s: State)
  {
    Waiting(s) == s.kernel + Posts(s) + Positive(-s.count)
  }

  /** Every permit ever put in is in the counter, owed to a waiter, or granted. */
  ghost predicate PermitsConserved(s: State)
  {
    s.initial + s.signalled == s.count + Waiting(s) + s.acquired
  }

  /** Every element is announced by an enqueuer about to signal, covered by an available
      or travelling permit, or reserved by a consumer. */
  ghost predicate ElementsCovered(s: State)
  {
    s.inner + s.initial == Unsignalled(s) + Positive(s.count) + s.kernel + Posts(s) + Held(s)
  }

  ghost predicate Inv(s: State)
  {
    && WaitersMatched(s) && PermitsConserved(s) && ElementsCovered(s)
    && (forall t :: 0 <= t < |s.threads| ==> PcOk(s.threads[t]))
  }

  lemma Sums(s: State, t: nat, pc: PC)
    requires t < |s.threads|
    ensures var threads' := s.threads[t := pc];
            && Sum(threads', UnsignalledBy) == Unsignalled(s) - UnsignalledBy(s.threads[t]) + UnsignalledBy(pc)
            && Sum(threads', PostsBy) == Posts(s) - PostsBy(s.threads[t]) + PostsBy(pc)
            && Sum(threads', WaitingBy) == Waiting(s) - WaitingBy(s.threads[t]) + WaitingBy(pc)
            && Sum(threads', HeldBy) == Held(s) - HeldBy(s.threads[t]) + HeldBy(pc)
  {
    SumUpdate(s.threads, t, pc, UnsignalledBy);
    SumUpdate(s.threads, t, pc, PostsBy);
    SumUpdate(s.threads, t, pc, WaitingBy);
    SumUpdate(s.threads, t, pc, HeldBy);
  }

  /** What a step of thread t does to the sums, from what it does to the thread. */
  ghost predicate Balanced(s: State, s': State, pc: PC, pc': PC)
  {
    && s'.initial == s.initial
    && WaitingBy(pc') - WaitingBy(pc) ==
         s'.kernel - s.kernel + PostsBy(pc') - PostsBy(pc) + Positive(-s'.count) - Positive(-s.count)
    && s'.signalled - s.signalled == s'.count - s.count + WaitingBy(pc') - WaitingBy(pc) + s'.acquired - s.acquired
    && s'.inner - s.inner ==
         UnsignalledBy(pc') - UnsignalledBy(pc) + Positive(s'.count) - Positive(s.count) + s'.kernel - s.kernel
         + PostsBy(pc') - PostsBy(pc) + HeldBy(pc') - HeldBy(pc)
  }

  lemma BalancedKeeps(s: State, s': State, t: nat)
    requires Inv(s) && t < |s.threads| == |s'.threads| && s'.threads == s.threads[t := s'.threads[t]]
    requires PcOk(s'.threads[t]) && Balanced(s, s', s.threads[t], s'.threads[t])
    ensures Inv(s')
  {
    Sums(s, t, s'.threads[t]);
  }

  /** Enqueuers and signallers. */
  lemma SignalBalanced(s: State, t: nat, i: Input)
    requires t < |s.threads| && PcOk(s.threads[t]) && (s.threads[t].Idle? || s.threads[t].Signal? || s.threads[t].Post?)
    ensures var s' := Access(s, t, i);
            && s'.threads == s.threads[t := s'.threads[t]] && PcOk(s'.threads[t])
            && Balanced(s, s', s.threads[t], s'.threads[t])
  {
  }

  /** Attempts that take permits from a positive counter. */
  lemma TryBalanced(s: State, t: nat, i: Input)
    requires t < |s.threads| && PcOk(s.threads[t]) && (s.threads[t].TryLoad? || s.threads[t].TryCas?)
    ensures var s' := Access(s, t, i);
            && s'.threads == s.threads[t := s'.threads[t]] && PcOk(s'.threads[t])
            && Balanced(s, s', s.threads[t], s'.threads[t])
  {
  }

  lemma SpinBalanced(s: State, t: nat, i: Input)
    requires t < |s.threads| && PcOk(s.threads[t]) && (s.threads[t].SpinLoad? || s.threads[t].SpinCas?)
    ensures var s' := Access(s, t, i);
            && s'.threads == s.threads[t := s'.threads[t]] && PcOk(s'.threads[t])
            && Balanced(s, s', s.threads[t], s'.threads[t])
  {
  }

  /** The kernel semaphore, and dequeuing what one holds permits for. */
  lemma WaitBalanced(s: State, t: nat, i: Input)
    requires t < |s.threads| && PcOk(s.threads[t]) && (s.threads[t].Subtract? || s.threads[t].Wait? || s.threads[t].Retry?)
    ensures var s' := Access(s, t, i);
            && s'.threads == s.threads[t := s'.threads[t]] && PcOk(s'.threads[t])
            && Balanced(s, s', s.threads[t], s'.threads[t])
  {
  }

  lemma AccessKeeps(s: State, t: nat, i: Input)
    requires Inv(s) && t < |s.threads|
    ensures Inv(Access(s, t, i))
  {
    var pc := s.threads[t];
    assert PcOk(pc);
    if pc.Idle? || pc.Signal? || pc.Post? { SignalBalanced(s, t, i); }
    else if pc.TryLoad? || pc.TryCas? { TryBalanced(s, t, i); }
    else if pc.SpinLoad? || pc.SpinCas? { SpinBalanced(s, t, i); }
    else { WaitBalanced(s, t, i); }
    BalancedKeeps(s, Access(s, t, i), t);
  }

  lemma StepKeeps(s: State, t: nat, i: Input)
    requires Inv(s)
    ensures Inv(Step(s, t, i))
  {
    if t < |s.threads| { AccessKeeps(s, t, i); }
  }

  /** The locals of an acquisition are those of the call recorded: `base` permits already held
      and `max` still wanted make up the maximum asked for. */
  ghost predicate AskedOk(pc: PC, call: Call)
  {
    match pc
    case TryLoad(max, wait, base) => call == Dequeue(base + max, wait)
    case TryCas(max, wait, base, _) => call == Dequeue(base + max, wait)
    case SpinLoad(max, _) => call == Dequeue(max, true)
    case SpinCas(max, _, _) => call == Dequeue(max, true)
    case Subtract(max) => call == Dequeue(max, true)
    case Wait(max) => call == Dequeue(max, true)
    case Retry(_, _, max, wait) => call == Dequeue(max, wait)
    case _ => true
  }

  /** All that there is, up to `max`. */
  function Greedy(max: nat, count: int): nat
  {
    if count <= 0 then 0 else if count < max then count else max
  }

  /** All that there is, up to the maximum asked for, at the last access; a waiting call may
      have acquired one permit the hard way before, if there was `none` at first, and does not
      come back without one. */
  ghost predicate Fair(g: Grant, none: bool)
  {
    && g.call.Dequeue?
    && var Dequeue(max, wait) := g.call;
       || (g.got == Greedy(max, g.seen) && (wait && max > 0 ==> g.got > 0))
       || (wait && none && max > 0 && g.got == 1 + Greedy(max - 1, g.seen))
  }

  ghost predicate GrantOk(g: Grant) { Fair(g, true) }

  ghost predicate HistoryOk(s: State)
  {
    && |s.calls| == |s.threads|
    && (forall t :: 0 <= t < |s.threads| ==> AskedOk(s.threads[t], s.calls[t]))
    && (forall j :: 0 <= j < |s.grants| ==> GrantOk(s.grants[j]))
  }

  /** The call goes on with the locals its step leaves, or is granted what it asked for. */
  ghost predicate StillAsked(pc: PC, pc': PC, call: Call, count: int)
  {
    && AskedOk(pc', call) && PcOk(pc')
    && (Hard(pc') ==> Hard(pc) || count <= 0)
    && (Acquiring(pc) && !Acquiring(pc') ==>
          (pc'.Idle? || (pc'.Retry? && pc'.need == pc'.got))
          && Fair(Grant(call, if pc'.Retry? then pc'.got else 0, count), Hard(pc)))
  }

  /** Acquiring a permit the hard way, or having done so. */
  predicate Hard(pc: PC)
  {
    pc.SpinLoad? || pc.SpinCas? || pc.Subtract? || pc.Wait? || (pc.TryLoad? && pc.base > 0) || (pc.TryCas? && pc.base > 0)
  }

  lemma AskedLoad(s: State, t: nat, i: Input, call: Call)
    requires t < |s.threads| && s.threads[t].TryLoad? && PcOk(s.threads[t]) && AskedOk(s.threads[t], call)
    ensures StillAsked(s.threads[t], Access(s, t, i).threads[t], call, s.count)
  {
    if s.count <= 0 { AskedResult(s.threads[t], 0, s.threads[t].max, s.threads[t].wait, s.threads[t].base, call, s.count); }
  }

  lemma AskedCas(s: State, t: nat, i: Input, call: Call)
    requires t < |s.threads| && s.threads[t].TryCas? && PcOk(s.threads[t]) && AskedOk(s.threads[t], call)
    ensures StillAsked(s.threads[t], Access(s, t, i).threads[t], call, s.count)
  {
    var TryCas(max, wait, base, seen) := s.threads[t];
    if s.count == seen && i.ok { AskedResult(s.threads[t], Take(seen, max), max, wait, base, call, s.count); }
    else if s.count <= 0 { AskedResult(s.threads[t], 0, max, wait, base, call, s.count); }
  }

  /** What an attempt comes back with. */
  lemma AskedResult(pc: PC, got: nat, max: nat, wait: bool, base: nat, call: Call, count: int)
    requires (pc.TryLoad? || pc.TryCas?) && pc.base == base && pc.max == max && pc.wait == wait && PcOk(pc) && AskedOk(pc, call)
    requires got == Greedy(max, count)
    ensures StillAsked(pc, TryResult(got, max, wait, base), call, count)
  {
  }

  lemma AskedSpin(s: State, t: nat, i: Input, call: Call)
    requires t < |s.threads| && (s.threads[t].SpinLoad? || s.threads[t].SpinCas?) && PcOk(s.threads[t]) && AskedOk(s.threads[t], call)
    ensures StillAsked(s.threads[t], Access(s, t, i).threads[t], call, s.count)
  {
  }

  lemma AskedAccess(s: State, t: nat, i: Input, call: Call)
    requires t < |s.threads| && !s.threads[t].Idle? && PcOk(s.threads[t]) && AskedOk(s.threads[t], call)
    ensures StillAsked(s.threads[t], Access(s, t, i).threads[t], call, s.count)
  {
    match s.threads[t]
    case TryLoad(_, _, _) => AskedLoad(s, t, i, call);
    case TryCas(_, _, _, _) => AskedCas(s, t, i, call);
    case SpinLoad(_, _) => AskedSpin(s, t, i, call);
    case SpinCas(_, _, _) => AskedSpin(s, t, i, call);
    case _ =>
  }

  lemma AccessShape(s: State, t: nat, i: Input)
    requires t < |s.threads|
    ensures Access(s, t, i).threads == s.threads[t := Access(s, t, i).threads[t]]
  {
  }

  lemma HistoryKeeps(s: State, t: nat, i: Input)
    requires Inv(s) && HistoryOk(s)
    ensures HistoryOk(Step(s, t, i))
  {
    if t < |s.threads| {
      AccessShape(s, t, i);
      if !s.threads[t].Idle? {
        assert PcOk(s.threads[t]) && AskedOk(s.threads[t], s.calls[t]);
        AskedAccess(s, t, i, s.calls[t]);
      } else {
        AskedBegins(s, t, i);
      }
    }
  }

  lemma AskedBegins(s: State, t: nat, i: Input)
    requires t < |s.threads| && s.threads[t].Idle?
    ensures AskedOk(Access(s, t, i).threads[t], i.call)
  {
  }

  // ---------------------------------------------------------------------------
  // Runs

  datatype Action = Action(thread: nat, input: Input)

  ghost function Run(s: State, actions: seq<Action>): (s': State)
    ensures |s'.threads| == |s.threads|
  {
    if |actions| == 0 then s else
    var last := actions[|actions| - 1];
    Step(Run(s, actions[..|actions| - 1]), last.thread, last.input)
  }

  /** A new semaphore with `initial` permits over an empty inner queue. */
  ghost predicate Init(s: State)
  {
    && s.count == s.initial && s.kernel == 0 && s.inner == 0 && s.signalled == 0 && s.acquired == 0
    && (forall t :: 0 <= t < |s.threads| ==> s.threads[t] == Idle)
    && |s.calls| == |s.threads| && s.grants == []
  }

  lemma SameInitial(s: State, t: nat, i: Input)
    ensures Step(s, t, i).initial == s.initial
  {
  }

  lemma InitInvariant(s: State)
    requires Init(s)
    ensures Inv(s) && HistoryOk(s)
  {
    SumZero(s.threads, UnsignalledBy);
    SumZero(s.threads, PostsBy);
    SumZero(s.threads, WaitingBy);
    SumZero(s.threads, HeldBy);
  }

  lemma {:induction false} RunInvariant(s: State, actions: seq<Action>)
    requires Init(s)
    ensures Inv(Run(s, actions)) && HistoryOk(Run(s, actions)) && Run(s, actions).initial == s.initial
  {
    if |actions| == 0 {
      InitInvariant(s);
    } else {
      RunInvariant(s, actions[..|actions| - 1]);
      var s1, last := Run(s, actions[..|actions| - 1]), actions[|actions| - 1];
      StepKeeps(s1, last.thread, last.input);
      HistoryKeeps(s1, last.thread, last.input);
      assert Run(s, actions) == Step(s1, last.thread, last.input);
      SameInitial(s1, last.thread, last.input);
    }
  }

  /** `s` occurs in some run of a semaphore that starts with `initial` permits. */
  ghost predicate Reachable(s: State)
  {
    exists s0, actions :: Init(s0) && s == Run(s0, actions)
  }

  lemma ReachableInvariant(s: State)
    requires Reachable(s)
    ensures Inv(s) && HistoryOk(s)
  {
    var s0, actions :| Init(s0) && s == Run(s0, actions);
    RunInvariant(s0, actions);
  }

  /** Semaphore accounting: committed waiters equal kernel permits plus pending posts
      plus the negative part of the counter, and never more permits are granted than were
      there at the start or signalled. */
  lemma SemaphoreAccounting(s: State)
    requires Reachable(s)
    ensures Waiting(s) == s.kernel + Posts(s) + Positive(-s.count)
    ensures s.acquired + Positive(s.count) + s.kernel + Posts(s) == s.initial + s.signalled
    ensures s.acquired <= s.initial + s.signalled
  {
    ReachableInvariant(s);
  }

  /** In the blocking queue (a semaphore that starts at zero) the element count is always
      the elements not yet signalled, plus available and travelling permits, plus permits
      held by consumers. So a consumer inside a retry loop has its elements to find,
      whatever the others hold. */
  lemma RetryFindsElement(s: State, t: nat)
    requires Reachable(s) && s.initial == 0
    ensures s.inner == Unsignalled(s) + Positive(s.count) + s.kernel + Posts(s) + Held(s)
    ensures t < |s.threads| && s.threads[t].Retry? ==> 0 < s.threads[t].need <= s.inner
  {
    ReachableInvariant(s);
    if t < |s.threads| && s.threads[t].Retry? {
      assert PcOk(s.threads[t]);
      SumMember(s.threads, t, HeldBy);
    }
  }

  /** No wake-up is lost: with no signaller in flight, the waiters that find no permit in
      the kernel semaphore are exactly the negative part of the counter; if there is such
      a waiter, every element is reserved by a permit that someone has or can take; and
      if some element is not yet reserved, a permit for it can be taken. */
  lemma NoLostWakeup(s: State)
    requires Reachable(s) && s.initial == 0 && Posts(s) == 0 && Unsignalled(s) == 0
    ensures Waiting(s) == s.kernel + Positive(-s.count)
    ensures Waiting(s) > s.kernel ==> s.inner == s.kernel + Held(s)
    ensures s.inner > Held(s) ==> s.count > 0 || s.kernel > 0
  {
    ReachableInvariant(s);
  }

  /** In the whole history of a run, every finished tryWaitMany(max) got exactly the positive
      part of m_count at its last access, up to max; so it got nothing only from a count of
      zero or less. waitMany(max) got that too, or one permit the hard way and, greedily, what
      there was on top of it; with max > 0 it got at least one. The permits a consumer holds in
      its retry loop are those its call got. */
  lemma WaitManyBounds(s: State, t: nat, j: nat)
    requires Reachable(s)
    ensures j < |s.grants| ==>
              var g := s.grants[j];
              && g.call.Dequeue? && g.got <= g.call.max && (g.call.wait && g.call.max > 0 ==> 1 <= g.got)
              && (g.got == Greedy(g.call.max, g.seen) || (g.call.wait && g.call.max > 0 && g.got == 1 + Greedy(g.call.max - 1, g.seen)))
    ensures t < |s.threads| && s.threads[t].Retry? ==>
              && t < |s.calls| && s.calls[t] == Dequeue(s.threads[t].max, s.threads[t].wait)
              && 1 <= s.threads[t].got <= s.calls[t].max && s.threads[t].need <= s.threads[t].got
  {
    ReachableInvariant(s);
    if t < |s.threads| { assert PcOk(s.threads[t]) && AskedOk(s.threads[t], s.calls[t]); }
    if j < |s.grants| { assert GrantOk(s.grants[j]); }
  }

  /** A waiting call with max > 0 never leaves the semaphore without a permit: each of its
      steps stays there or leads to the retry loop. */
  lemma WaitNeverEmpty(s: State, t: nat, i: Input)
    requires Reachable(s) && t < |s.threads| && Acquiring(s.threads[t])
    ensures t < |s.calls| && s.calls[t].Dequeue?
    ensures s.calls[t].wait && s.calls[t].max > 0 ==> !Step(s, t, i).threads[t].Idle?
  {
    ReachableInvariant(s);
    assert PcOk(s.threads[t]) && AskedOk(s.threads[t], s.calls[t]);
  }

  // ---------------------------------------------------------------------------
  // The outcome of a call

  /** `actions` begin a call of thread t in s; it goes on until an idle program point. */
  ghost predicate Begun(s: State, actions: seq<Action>, t: nat, call: Call)
  {
    && t < |s.threads| && s.threads[t].Idle? && |actions| > 0
    && actions[0].thread == t && actions[0].input.call == call && (call.Enqueue? ==> actions[0].input.ok)
  }

  /** A whole call, with steps of the others in between. */
  ghost predicate IsCall(s: State, actions: seq<Action>, t: nat, call: Call)
  {
    && Begun(s, actions, t, call) && Run(s, actions).threads[t].Idle?
    && (forall k :: 0 < k < |actions| ==> !Run(s, actions[..k]).threads[t].Idle?)
  }

  /** Elements that thread t took out of the inner queue, less those it put in. */
  ghost function Taken(s: State, actions: seq<Action>, t: nat): int
  {
    if |actions| == 0 then 0 else
    var before := actions[..|actions| - 1];
    Taken(s, before, t) + (if actions[|actions| - 1].thread == t then Run(s, before).inner - Run(s, actions).inner else 0)
  }

  /** Permits that thread t added to the semaphore. */
  ghost function Signalled(s: State, actions: seq<Action>, t: nat): int
  {
    if |actions| == 0 then 0 else
    var before := actions[..|actions| - 1];
    Signalled(s, before, t) + (if actions[|actions| - 1].thread == t then Run(s, actions).signalled - Run(s, before).signalled else 0)
  }

  /** There was no permit at an instant between the first and the last step. */
  ghost predicate SawNone(s: State, actions: seq<Action>)
  {
    exists k :: 0 < k < |actions| && Run(s, actions[..k]).count <= 0
  }

  /** Step k is that which finishes an acquisition with grant g. */
  ghost predicate GrantedAt(s: State, actions: seq<Action>, k: nat, g: Grant)
  {
    && 0 < k <= |actions| && g.seen == Run(s, actions[..k - 1]).count
    && Run(s, actions[..k]).grants == Run(s, actions[..k - 1]).grants + [g]
  }

  ghost predicate Granted(s: State, actions: seq<Action>, call: Call, got: int)
  {
    exists k, g :: GrantedAt(s, actions, k, g) && g.call == call && g.got == got && Fair(g, SawNone(s, actions))
  }

  /** How far a call is, by what it has taken, put in and signalled. */
  ghost predicate SoFar(s: State, actions: seq<Action>, t: nat, call: Call)
    requires t < |s.threads|
  {
    var r, taken, signalled := Run(s, actions), Taken(s, actions, t), Signalled(s, actions, t);
    && t < |r.calls| && r.calls[t] == call
    && match call
       case Enqueue(n) => taken + n == 0 && (if r.threads[t].Post? then signalled == n else r.threads[t] == Signal(n) && signalled == 0)
       case Dequeue(max, wait) =>
         && signalled == 0 && !r.threads[t].Idle? && !r.threads[t].Signal? && !r.threads[t].Post?
         && (if r.threads[t].Retry? then Granted(s, actions, call, r.threads[t].got) && taken == r.threads[t].got - r.threads[t].need
             else taken == 0 && (Hard(r.threads[t]) ==> SawNone(s, actions)))
  }

  /** What a call has done when it is over. */
  ghost predicate Outcome(s: State, actions: seq<Action>, t: nat, call: Call)
  {
    match call
    case Enqueue(n) => Taken(s, actions, t) + n == 0 && Signalled(s, actions, t) == n
    case Dequeue(max, wait) => Signalled(s, actions, t) == 0 && Granted(s, actions, call, Taken(s, actions, t))
  }

  /** What has been seen and granted by the last step but one, or is at it. */
  lemma SawMore(s: State, actions: seq<Action>)
    requires |actions| > 1
    ensures var before := actions[..|actions| - 1];
            && (SawNone(s, before) || Run(s, before).count <= 0 ==> SawNone(s, actions))
            && (forall k, g :: GrantedAt(s, before, k, g) ==> GrantedAt(s, actions, k, g))
  {
    var n := |actions| - 1;
    forall k | 0 < k <= n ensures actions[..n][..k] == actions[..k] {}
  }

  lemma GrantedMore(s: State, actions: seq<Action>, call: Call, got: int)
    requires |actions| > 1 && Granted(s, actions[..|actions| - 1], call, got)
    ensures Granted(s, actions, call, got)
  {
    SawMore(s, actions);
    var k, g :| GrantedAt(s, actions[..|actions| - 1], k, g) && g.call == call && g.got == got && Fair(g, SawNone(s, actions[..|actions| - 1]));
    assert GrantedAt(s, actions, k, g);
  }

  lemma OtherStays(s: State, t: nat, a: Action)
    requires t < |s.threads| && t < |s.calls| && a.thread != t
    ensures var s' := Step(s, a.thread, a.input); s'.threads[t] == s.threads[t] && t < |s'.calls| && s'.calls[t] == s.calls[t]
  {
  }

  lemma OtherStep(s: State, actions: seq<Action>, t: nat, call: Call)
    requires t < |s.threads| && |actions| > 1 && actions[|actions| - 1].thread != t && SoFar(s, actions[..|actions| - 1], t, call)
    ensures SoFar(s, actions, t, call)
  {
    var n := |actions| - 1;
    OtherStays(Run(s, actions[..n]), t, actions[n]);
    SawMore(s, actions);
    if Run(s, actions[..n]).threads[t].Retry? && call.Dequeue? { GrantedMore(s, actions, call, Run(s, actions[..n]).threads[t].got); }
  }

  /** The enqueuer's own step: the elements are in already; signal, then post. */
  lemma EnqueueStep(s: State, actions: seq<Action>, t: nat, call: Call)
    requires t < |s.threads| && |actions| > 1 && actions[|actions| - 1].thread == t && call.Enqueue?
    requires SoFar(s, actions[..|actions| - 1], t, call)
    ensures if Run(s, actions).threads[t].Idle? then Outcome(s, actions, t, call) else SoFar(s, actions, t, call)
  {
  }

  /** The consumer's own step in its retry loop. */
  lemma RetryStep(s: State, actions: seq<Action>, t: nat, call: Call)
    requires t < |s.threads| && |actions| > 1 && actions[|actions| - 1].thread == t && call.Dequeue?
    requires SoFar(s, actions[..|actions| - 1], t, call) && Run(s, actions[..|actions| - 1]).threads[t].Retry?
    ensures if Run(s, actions).threads[t].Idle? then Outcome(s, actions, t, call) else SoFar(s, actions, t, call)
  {
    GrantedMore(s, actions, call, Run(s, actions[..|actions| - 1]).threads[t].got);
  }

  /** The consumer's own step in the semaphore. */
  lemma AcquireStep(s: State, actions: seq<Action>, t: nat, call: Call)
    requires t < |s.threads| && |actions| > 1 && actions[|actions| - 1].thread == t && call.Dequeue?
    requires SoFar(s, actions[..|actions| - 1], t, call) && Acquiring(Run(s, actions[..|actions| - 1]).threads[t])
    requires var r := Run(s, actions[..|actions| - 1]); PcOk(r.threads[t]) && AskedOk(r.threads[t], call)
    ensures if Run(s, actions).threads[t].Idle? then Outcome(s, actions, t, call) else SoFar(s, actions, t, call)
  {
    var n := |actions| - 1;
    var r, r' := Run(s, actions[..n]), Run(s, actions);
    AskedAccess(r, t, actions[n].input, call);
    AcquireApart(r, t, actions[n].input);
    SawMore(s, actions);
    var pc' := r'.threads[t];
    if !Acquiring(pc') {
      var g := Grant(call, if pc'.Retry? then pc'.got else 0, r.count);
      assert actions[..|actions|] == actions && GrantedAt(s, actions, |actions|, g);
      assert Fair(g, SawNone(s, actions));
    }
  }

  /** The semaphore's accesses leave elements and signals alone. */
  lemma AcquireApart(s: State, t: nat, i: Input)
    requires t < |s.threads| && Acquiring(s.threads[t])
    ensures var s' := Step(s, t, i); s'.inner == s.inner && s'.signalled == s.signalled && s'.calls == s.calls
  {
  }

  lemma FirstStep(s: State, actions: seq<Action>, t: nat, call: Call)
    requires Begun(s, actions, t, call) && |actions| == 1 && |s.calls| == |s.threads|
    ensures SoFar(s, actions, t, call)
  {
    assert Run(s, actions[..0]) == s;
  }

  lemma {:induction false} RunKeeps(s: State, actions: seq<Action>)
    requires Inv(s) && HistoryOk(s)
    ensures Inv(Run(s, actions)) && HistoryOk(Run(s, actions))
  {
    if |actions| > 0 {
      var n := |actions| - 1;
      RunKeeps(s, actions[..n]);
      StepKeeps(Run(s, actions[..n]), actions[n].thread, actions[n].input);
      HistoryKeeps(Run(s, actions[..n]), actions[n].thread, actions[n].input);
    }
  }

  lemma CallStep(s: State, actions: seq<Action>, t: nat, call: Call)
    requires Inv(s) && HistoryOk(s) && t < |s.threads| && |actions| > 1 && SoFar(s, actions[..|actions| - 1], t, call)
    ensures if Run(s, actions).threads[t].Idle? then Outcome(s, actions, t, call) else SoFar(s, actions, t, call)
  {
    var n := |actions| - 1;
    var r := Run(s, actions[..n]);
    RunKeeps(s, actions[..n]);
    assert PcOk(r.threads[t]) && AskedOk(r.threads[t], r.calls[t]);
    if actions[n].thread != t { OtherStep(s, actions, t, call); }
    else if call.Enqueue? { EnqueueStep(s, actions, t, call); }
    else if r.threads[t].Retry? { RetryStep(s, actions, t, call); }
    else { AcquireStep(s, actions, t, call); }
  }

  lemma {:induction false} CallSoFar(s: State, actions: seq<Action>, t: nat, call: Call)
    requires Inv(s) && HistoryOk(s) && Begun(s, actions, t, call)
    requires forall k :: 0 < k <= |actions| ==> !Run(s, actions[..k]).threads[t].Idle?
    ensures SoFar(s, actions, t, call)
  {
    var n := |actions| - 1;
    if n == 0 {
      FirstStep(s, actions, t, call);
    } else {
      assert actions[..|actions|] == actions;
      forall k | 0 < k <= n ensures actions[..n][..k] == actions[..k] {}
      CallSoFar(s, actions[..n], t, call);
      CallStep(s, actions, t, call);
    }
  }

  /** In every run, whatever the others do: an enqueue that finds memory puts in exactly its
      elements and as many permits. A dequeue takes out exactly as many elements as the grant
      recorded for it has permits: without waiting, all that m_count has at an instant of the
      call, up to max; waiting, at least one if max > 0, and one the hard way only if m_count
      was zero or less at an instant of the call. */
  lemma CallOutcome(s: State, actions: seq<Action>, t: nat, call: Call)
    requires Reachable(s) && IsCall(s, actions, t, call)
    ensures Outcome(s, actions, t, call)
  {
    ReachableInvariant(s);
    var n := |actions| - 1;
    if n == 0 {
      FirstStep(s, actions, t, call);
    } else {
      forall k | 0 < k <= n ensures actions[..n][..k] == actions[..k] {}
      CallSoFar(s, actions[..n], t, call);
      CallStep(s, actions, t, call);
    }
  }

  // ---------------------------------------------------------------------------
  // A call that nobody disturbs

  /** Thread t alone makes n steps; no weak compare-and-swap fails for no reason and the inner
      queue finds what is there. */
  ghost function Alone(s: State, t: nat, call: Call, n: nat): (s': State)
    ensures |s'.threads| == |s.threads|
    decreases n
  {
    if n == 0 then s else Alone(Step(s, t, Input(call, true, s.inner)), t, call, n - 1)
  }

  predicate AllIdle(s: State) { forall t :: 0 <= t < |s.threads| ==> s.threads[t].Idle? }

  /** What matters to the next call. */
  predicate Counts(s: State, s': State, added: nat, taken: nat)
  {
    s'.count == s.count + added - taken && s'.inner == s.inner + added - taken && s'.kernel == s.kernel && AllIdle(s')
  }

  /** With nothing in flight the semaphore counts the elements; an enqueue adds its n to both, a
      dequeue takes min(max, elements) from both, at once; only if there are none does it come
      back with none, without waiting, or go on to spin. */
  lemma CallAlone(s: State, t: nat, call: Call)
    requires Reachable(s) && s.initial == 0 && AllIdle(s) && t < |s.threads|
    ensures s.count == s.inner && s.kernel == 0
    ensures match call
            case Enqueue(n) => Counts(s, Alone(s, t, call, 2), n, 0)
            case Dequeue(max, wait) =>
              if s.inner > 0 && max > 0 then Counts(s, Alone(s, t, call, 4), 0, Greedy(max, s.inner))
              else if s.inner == 0 && !(wait && max > 0) then Counts(s, Alone(s, t, call, 2), 0, 0)
              else max == 0 || Alone(s, t, call, 2).threads[t].SpinLoad?
  {
    ReachableInvariant(s);
    SumZero(s.threads, UnsignalledBy);
    SumZero(s.threads, PostsBy);
    SumZero(s.threads, WaitingBy);
    SumZero(s.threads, HeldBy);
    match call
    case Enqueue(n) => EnqueueSteps(s, t, n);
    case Dequeue(max, wait) => DequeueSteps(s, t, max, wait);
  }

  lemma EnqueueSteps(s: State, t: nat, n: nat)
    requires AllIdle(s) && t < |s.threads| && s.count >= 0
    ensures Counts(s, Alone(s, t, Enqueue(n), 2), n, 0)
  {
    var s1 := Step(s, t, Input(Enqueue(n), true, s.inner));
    var s2 := Step(s1, t, Input(Enqueue(n), true, s1.inner));
    assert Alone(s, t, Enqueue(n), 2) == Alone(s1, t, Enqueue(n), 1) == s2;
  }

  lemma DequeueSteps(s: State, t: nat, max: nat, wait: bool)
    requires AllIdle(s) && t < |s.threads| && s.count == s.inner
    ensures var call := Dequeue(max, wait);
            if s.inner > 0 && max > 0 then Counts(s, Alone(s, t, call, 4), 0, Greedy(max, s.inner))
            else if s.inner == 0 && !(wait && max > 0) then Counts(s, Alone(s, t, call, 2), 0, 0)
            else max == 0 || Alone(s, t, call, 2).threads[t].SpinLoad?
  {
    var call := Dequeue(max, wait);
    var s1 := Step(s, t, Input(call, true, s.inner));
    var s2 := Step(s1, t, Input(call, true, s1.inner));
    assert Alone(s, t, call, 2) == Alone(s1, t, call, 1) == s2;
    if s.inner > 0 && max > 0 {
      assert Alone(s, t, call, 4) == Alone(s1, t, call, 3) == Alone(s2, t, call, 2);
      TakeSteps(s2, t, max, wait);
    }
  }

  lemma TakeSteps(s: State, t: nat, max: nat, wait: bool)
    requires t < |s.threads| && s.threads[t] == TryCas(max, wait, 0, s.count) && s.count == s.inner > 0 && max > 0
    requires forall u :: 0 <= u < |s.threads| && u != t ==> s.threads[u].Idle?
    ensures Counts(s, Alone(s, t, Dequeue(max, wait), 2), 0, Greedy(max, s.inner))
  {
    var call, got := Dequeue(max, wait), Greedy(max, s.inner);
    var s1 := Step(s, t, Input(call, true, s.inner));
    assert s1.threads == s.threads[t := Retry(got, got, max, wait)] && s1.count == s.count - got && s1.inner == s.inner && s1.kernel == s.kernel;
    assert Alone(s, t, call, 2) == Alone(s1, t, call, 1);
    LastRetry(s1, t, call);
  }

  lemma LastRetry(s: State, t: nat, call: Call)
    requires t < |s.threads| && s.threads[t].Retry? && 0 < s.threads[t].need <= s.inner
    ensures var s', need := Alone(s, t, call, 1), s.threads[t].need;
            && s'.count == s.count && s'.inner == s.inner - need && s'.kernel == s.kernel && s'.threads == s.threads[t := Idle]
  {
    assert Alone(s, t, call, 1) == Step(s, t, Input(call, true, s.inner));
  }
}
