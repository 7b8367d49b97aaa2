/** The reader/writer lock: a reader count `r` and a writer `w`. A reader announces
    itself in `r` and then looks at `w`; a writer announces itself in `w` and then looks
    at `r`; whoever sees the other backs out. One step is one access to `r` or `w`. */
module RwLock {
  import opened Counting

  datatype Writer = Nobody | By(t: nat)

  /** Program points; `wait` distinguishes rdlock and wrlock from their try forms. */
  datatype PC =
    | Idle
    | ReadTest(wait: bool)    // about to load w
    | ReadInc(wait: bool)     // about to add 1 to r
    | ReadCheck(wait: bool)   // about to load w again
    | ReadUndo(wait: bool)    // about to add -1 to r
    | WriteTestR(wait: bool)  // about to load r
    | WriteTestW(wait: bool)  // about to load w
    | WriteCas(wait: bool)    // about to CAS w from null to me
    | WriteCheck(wait: bool)  // about to load r again
    | WriteUndo(wait: bool)   // about to store null in w
    | UnlockTest              // about to compare w with me
    | UnlockWrite             // about to store null in w
    | UnlockRead              // about to add -1 to r

  /** What a lock call returns: 0 or EBUSY. */
  datatype Result = Granted | Busy

  /** A vthread, with the read locks (they nest) and the write lock it has been granted, and
      what its last lock call returned. */
  datatype Thread = Thread(pc: PC, reading: nat, writing: bool, result: Result)

  datatype State = State(r: int, w: Writer, threads: seq<Thread>)

  datatype Call = ReadLock(wait: bool) | WriteLock(wait: bool) | Unlock

  datatype Action = Action(thread: nat, call: Call)

  function Set(s: State, t: nat, th: Thread): State
    requires t < |s.threads|
  {
    s.(threads := s.threads[t := th])
  }

  /** Where a failed attempt goes: back to the start, or out with EBUSY. */
  function Failed(th: Thread, wait: bool, again: PC): Thread
  {
    if wait then th.(pc := again) else th.(pc := Idle, result := Busy)
  }

  /** One step of vthread `t`; an idle one starts `call`, and unlocks only what it holds. */
  function Step(s: State, t: nat, call: Call): (s': State)
    ensures |s'.threads| == |s.threads|
  {
    if t >= |s.threads| then s else
    var th := s.threads[t];
    match th.pc
    case Idle =>
      (match call
       case ReadLock(wait) => Set(s, t, th.(pc := ReadTest(wait)))
       case WriteLock(wait) => Set(s, t, th.(pc := WriteTestR(wait)))
       case Unlock => if th.reading > 0 || th.writing then Set(s, t, th.(pc := UnlockTest)) else s)
    case ReadTest(wait) => Set(s, t, if s.w.By? then Failed(th, wait, ReadTest(wait)) else th.(pc := ReadInc(wait)))
    case ReadInc(wait) => Set(s.(r := s.r + 1), t, th.(pc := ReadCheck(wait)))
    case ReadCheck(wait) =>
      Set(s, t, if s.w.Nobody? then th.(pc := Idle, reading := th.reading + 1, result := Granted) else th.(pc := ReadUndo(wait)))
    case ReadUndo(wait) => Set(s.(r := s.r - 1), t, Failed(th, wait, ReadTest(wait)))
    case WriteTestR(wait) => Set(s, t, if s.r != 0 then Failed(th, wait, WriteTestR(wait)) else th.(pc := WriteTestW(wait)))
    case WriteTestW(wait) => Set(s, t, if s.w.By? then Failed(th, wait, WriteTestR(wait)) else th.(pc := WriteCas(wait)))
    case WriteCas(wait) =>
      if s.w.Nobody? then Set(s.(w := By(t)), t, th.(pc := WriteCheck(wait)))
      else Set(s, t, Failed(th, wait, WriteTestR(wait)))
    case WriteCheck(wait) =>
      Set(s, t, if s.r == 0 then th.(pc := Idle, writing := true, result := Granted) else th.(pc := WriteUndo(wait)))
    case WriteUndo(wait) => Set(s.(w := Nobody), t, Failed(th, wait, WriteTestR(wait)))
    case UnlockTest => Set(s, t, th.(pc := if s.w == By(t) then UnlockWrite else UnlockRead))
    case UnlockWrite => Set(s.(w := Nobody), t, th.(pc := Idle, writing := false))
    case UnlockRead => Set(s.(r := s.r - 1), t, th.(pc := Idle, reading := if th.reading > 0 then th.reading - 1 else 0))
  }

  // ---------------------------------------------------------------------------

  /** Increments of `r` by this vthread that it has not yet taken back. */
  function Announced(th: Thread): nat
  {
    th.reading + (if th.pc.ReadCheck? || th.pc.ReadUndo? then 1 else 0)
  }

  /** Has its mark in `w`. */
  predicate Marks(th: Thread) { th.writing || th.pc.WriteCheck? || th.pc.WriteUndo? }

  ghost predicate ThreadOk(s: State, t: nat)
    requires t < |s.threads|
  {
    var th := s.threads[t];
    && (Marks(th) <==> s.w == By(t))
    && (th.writing ==> !th.pc.WriteCas? && !th.pc.WriteCheck? && !th.pc.WriteUndo?)
    && (th.pc.UnlockTest? ==> th.reading > 0 || th.writing)
    && (th.pc.UnlockWrite? ==> th.writing)
    && (th.pc.UnlockRead? ==> th.reading > 0)
  }

  ghost predicate Excluded(s: State)
  {
    forall t, u :: 0 <= t < |s.threads| && 0 <= u < |s.threads| && s.threads[t].writing ==> s.threads[u].reading == 0
  }

  ghost predicate Inv(s: State)
  {
    && s.r == Sum(s.threads, Announced)
    && (s.w.By? ==> s.w.t < |s.threads|)
    && Excluded(s)
    && (forall t :: 0 <= t < |s.threads| ==> ThreadOk(s, t))
  }

  lemma KeepsCount(s: State, t: nat, call: Call)
    requires Inv(s)
    ensures Step(s, t, call).r == Sum(Step(s, t, call).threads, Announced)
  {
    if t < |s.threads| {
      CountMoves(s, t, call);
      SumUpdate(s.threads, t, Step(s, t, call).threads[t], Announced);
    }
  }

  /** A step changes r by as much as its vthread's announcements. */
  lemma CountMoves(s: State, t: nat, call: Call)
    requires t < |s.threads| && ThreadOk(s, t)
    ensures var s' := Step(s, t, call);
            && |s'.threads| == |s.threads| && s'.threads == s.threads[t := s'.threads[t]]
            && s'.r - s.r == Announced(s'.threads[t]) - Announced(s.threads[t])
  {
  }

  lemma KeepsThreads(s: State, t: nat, call: Call)
    requires Inv(s)
    ensures var s' := Step(s, t, call);
            && (s'.w.By? ==> s'.w.t < |s'.threads|)
            && (forall u :: 0 <= u < |s'.threads| ==> ThreadOk(s', u))
  {
    var s' := Step(s, t, call);
    if t < |s.threads| {
      OwnThread(s, t, call);
      forall u | 0 <= u < |s'.threads| && u != t ensures ThreadOk(s', u) {
        assert ThreadOk(s, u) && ThreadOk(s, t);
        OtherThread(s, t, u, call);
      }
    }
  }

  lemma OwnThread(s: State, t: nat, call: Call)
    requires t < |s.threads| && ThreadOk(s, t)
    ensures var s' := Step(s, t, call); |s'.threads| == |s.threads| && ThreadOk(s', t) && (s'.w.By? ==> s'.w == s.w || s'.w.t == t)
  {
  }

  /** A step changes nothing about another vthread, nor w if that one has marked it. */
  lemma OtherThread(s: State, t: nat, u: nat, call: Call)
    requires t < |s.threads| && u < |s.threads| && u != t && ThreadOk(s, t) && ThreadOk(s, u)
    ensures var s' := Step(s, t, call); |s'.threads| == |s.threads| && s'.threads[u] == s.threads[u] && ThreadOk(s', u)
  {
  }

  /** A writer that gets in saw r = 0, so nobody has even announced a read. */
  lemma WriterAlone(s: State, t: nat, call: Call)
    requires Inv(s) && t < |s.threads| && !s.threads[t].writing && Step(s, t, call).threads[t].writing
    ensures forall u :: 0 <= u < |s.threads| ==> Step(s, t, call).threads[u].reading == 0
  {
    assert s.r == 0 && Step(s, t, call).threads[t].reading == s.threads[t].reading;
    forall u | 0 <= u < |s.threads| ensures Step(s, t, call).threads[u].reading == 0 {
      SumMember(s.threads, u, Announced);
      if u != t { OtherStays(s, u, Action(t, call)); }
    }
  }

  /** A reader that gets in saw w = null, so nobody writes. */
  lemma ReaderFinds(s: State, t: nat, call: Call)
    requires Inv(s) && t < |s.threads| && Step(s, t, call).threads[t].reading > s.threads[t].reading
    ensures forall u :: 0 <= u < |s.threads| ==> !Step(s, t, call).threads[u].writing
  {
    assert s.w.Nobody? && Step(s, t, call).threads[t].writing == s.threads[t].writing;
    forall u | 0 <= u < |s.threads| ensures !Step(s, t, call).threads[u].writing {
      assert ThreadOk(s, u);
      if u != t { OtherStays(s, u, Action(t, call)); }
    }
  }

  lemma OtherStays(s: State, t: nat, a: Action)
    requires t < |s.threads| && a.thread != t
    ensures Step(s, a.thread, a.call).threads[t] == s.threads[t]
  {
  }

  lemma KeepsExclusion(s: State, t: nat, call: Call)
    requires Inv(s)
    ensures Excluded(Step(s, t, call))
  {
    if t < |s.threads| {
      var s' := Step(s, t, call);
      if s'.threads[t].writing && !s.threads[t].writing { WriterAlone(s, t, call); }
      else if s'.threads[t].reading > s.threads[t].reading { ReaderFinds(s, t, call); }
      else {
        assert s'.threads[t].writing ==> s.threads[t].writing;
        forall u, v | 0 <= u < |s.threads| && 0 <= v < |s.threads| && s'.threads[u].writing ensures s'.threads[v].reading == 0 {
          if u != t { OtherStays(s, u, Action(t, call)); }
          if v != t { OtherStays(s, v, Action(t, call)); }
        }
      }
    }
  }

  lemma StepKeeps(s: State, t: nat, call: Call)
    requires Inv(s)
    ensures Inv(Step(s, t, call))
  {
    KeepsCount(s, t, call);
    KeepsThreads(s, t, call);
    KeepsExclusion(s, t, call);
  }

  // ---------------------------------------------------------------------------
  // Runs

  ghost function Run(s: State, actions: seq<Action>): (s': State)
    ensures |s'.threads| == |s.threads|
  {
    if |actions| == 0 then s else
    var last := actions[|actions| - 1];
    Step(Run(s, actions[..|actions| - 1]), last.thread, last.call)
  }

  /** Idle, and holding nothing. */
  predicate Unused(th: Thread) { th.pc.Idle? && th.reading == 0 && !th.writing }

  /** pthread_rwlock_init. */
  ghost predicate Init(s: State)
  {
    s.r == 0 && s.w == Nobody && forall t :: 0 <= t < |s.threads| ==> Unused(s.threads[t])
  }

  lemma {:induction false} RunKeeps(s: State, actions: seq<Action>)
    requires Inv(s)
    ensures Inv(Run(s, actions))
  {
    if |actions| > 0 {
      var n := |actions| - 1;
      RunKeeps(s, actions[..n]);
      StepKeeps(Run(s, actions[..n]), actions[n].thread, actions[n].call);
    }
  }

  lemma RunInvariant(s: State, actions: seq<Action>)
    requires Init(s)
    ensures Inv(Run(s, actions))
  {
    SumZero(s.threads, Announced);
    RunKeeps(s, actions);
  }

  /** In every run of blocking and try forms: never two writers, never a writer with a
      reader; `r` counts exactly the announced readers; and unlock takes the side of the
      lock its caller holds. */
  lemma Exclusion(s0: State, actions: seq<Action>)
    requires Init(s0)
    ensures var s := Run(s0, actions);
            && (forall t, u :: 0 <= t < |s.threads| && 0 <= u < |s.threads| && s.threads[t].writing && s.threads[u].writing ==> t == u)
            && (forall t, u :: 0 <= t < |s.threads| && 0 <= u < |s.threads| && s.threads[t].writing ==> s.threads[u].reading == 0)
            && s.r == Sum(s.threads, Announced)
            && (forall t :: 0 <= t < |s.threads| && s.threads[t].pc.UnlockTest? ==> (s.w == By(t) <==> s.threads[t].writing))
            && (forall t :: 0 <= t < |s.threads| && s.threads[t].pc.UnlockWrite? ==> s.threads[t].writing)
            && (forall t :: 0 <= t < |s.threads| && s.threads[t].pc.UnlockRead? ==> s.threads[t].reading > 0 && !s.threads[t].writing)
  {
    RunInvariant(s0, actions);
    var s := Run(s0, actions);
    forall t | 0 <= t < |s.threads| ensures s.threads[t].writing ==> s.w == By(t) { assert ThreadOk(s, t); }
    forall t | 0 <= t < |s.threads| && s.threads[t].pc.UnlockTest? ensures s.w == By(t) <==> s.threads[t].writing {
      assert ThreadOk(s, t);
    }
    forall t | 0 <= t < |s.threads| && s.threads[t].pc.UnlockWrite? ensures s.threads[t].writing { assert ThreadOk(s, t); }
    forall t | 0 <= t < |s.threads| && s.threads[t].pc.UnlockRead? ensures s.threads[t].reading > 0 { assert ThreadOk(s, t); }
  }

  /** Once every vthread is idle and holds nothing, the lock is as new. */
  lemma AllReleased(s0: State, actions: seq<Action>)
    requires Init(s0)
    requires forall t :: 0 <= t < |s0.threads| ==> Unused(Run(s0, actions).threads[t])
    ensures Run(s0, actions).r == s0.r && Run(s0, actions).w == s0.w
  {
    RunInvariant(s0, actions);
    var s := Run(s0, actions);
    SumZero(s.threads, Announced);
    assert forall t :: 0 <= t < |s.threads| && ThreadOk(s, t) ==> s.w != By(t);
  }

  // ---------------------------------------------------------------------------
  // The outcome of a call

  /** `actions` take vthread t from s through one whole call, with steps of the others in
      between: it begins with the first of them and is over with the last. */
  ghost predicate IsCall(s: State, actions: seq<Action>, t: nat, call: Call)
  {
    Begun(s, actions, t, call) && Run(s, actions).threads[t].pc.Idle? && UnderWay(s, actions, t)
  }

  /** The call that begins with the first step is not over before the last. */
  ghost predicate UnderWay(s: State, actions: seq<Action>, t: nat)
    requires t < |s.threads|
    decreases |actions|
  {
    |actions| > 1 ==>
      var n := |actions| - 1; UnderWay(s, actions[..n], t) && !Run(s, actions[..n]).threads[t].pc.Idle?
  }

  ghost predicate Begun(s: State, actions: seq<Action>, t: nat, call: Call)
  {
    && t < |s.threads| && s.threads[t].pc.Idle? && |actions| > 0 && actions[0] == Action(t, call)
    && (call.Unlock? ==> s.threads[t].reading > 0 || s.threads[t].writing)
  }

  /** A writer, or a reader, was there at an instant between the first and the last step. */
  ghost predicate SawWriter(s: State, actions: seq<Action>)
  {
    exists k :: 0 < k < |actions| && Run(s, actions[..k]).w.By?
  }

  ghost predicate SawReader(s: State, actions: seq<Action>)
  {
    exists k :: 0 < k < |actions| && Run(s, actions[..k]).r != 0
  }

  ghost predicate SawNoReader(s: State, actions: seq<Action>)
  {
    exists k :: 0 < k < |actions| && Run(s, actions[..k]).r == 0
  }

  /** The program points of a call, what it has seen when it backs out, and that a writer does
      not announce itself before it has seen no reader. */
  ghost predicate Within(call: Call, pc: PC, writer: bool, reader: bool, free: bool)
  {
    match call
    case ReadLock(wait) =>
      || pc == ReadTest(wait) || pc == ReadInc(wait) || pc == ReadCheck(wait)
      || (pc == ReadUndo(wait) && writer)
    case WriteLock(wait) =>
      || pc == WriteTestR(wait)
      || (free && (pc == WriteTestW(wait) || pc == WriteCas(wait) || pc == WriteCheck(wait)))
      || (free && pc == WriteUndo(wait) && reader)
    case Unlock => pc == UnlockTest || pc == UnlockWrite || pc == UnlockRead
  }

  /** What a call does to what its vthread holds. */
  ghost predicate Outcome(call: Call, th: Thread, th': Thread, writer: bool, reader: bool)
  {
    match call
    case ReadLock(wait) =>
      th'.writing == th.writing
      && (if th'.result.Granted? then th'.reading == th.reading + 1 else !wait && writer && th'.reading == th.reading)
    case WriteLock(wait) =>
      th'.reading == th.reading
      && (if th'.result.Granted? then th'.writing && !th.writing else !wait && (writer || reader) && th'.writing == th.writing)
    case Unlock =>
      th'.result == th.result
      && (if th.writing then !th'.writing && th'.reading == th.reading else !th'.writing && th'.reading == th.reading - 1)
  }

  /** One more step: on to the next program point, or out with the outcome. */
  lemma CallStep(s: State, t: nat, call: Call, a: Action, writer: bool, reader: bool, free: bool)
    requires Inv(s) && t < |s.threads| && !s.threads[t].pc.Idle? && Within(call, s.threads[t].pc, writer, reader, free)
    ensures var th, th' := s.threads[t], Step(s, a.thread, a.call).threads[t];
            var writer', reader', free' := writer || s.w.By?, reader || s.r != 0, free || s.r == 0;
            if th'.pc.Idle? then Outcome(call, th, th', writer', reader')
            else Within(call, th'.pc, writer', reader', free') && th'.reading == th.reading && th'.writing == th.writing && (call.Unlock? ==> th'.result == th.result)
  {
    assert ThreadOk(s, t);
  }

  lemma FirstStep(s: State, actions: seq<Action>, t: nat, call: Call)
    requires Begun(s, actions, t, call)
    ensures Run(s, actions).threads[t].pc.Idle? ==> |actions| > 1
  {
    if |actions| == 1 { assert Run(s, actions[..0]) == s; }
  }

  /** What has been seen by the last step but one, or is there to be seen at it. */
  lemma SawMore(s: State, actions: seq<Action>)
    requires |actions| > 1
    ensures var before := actions[..|actions| - 1];
            && (SawWriter(s, before) || Run(s, before).w.By? ==> SawWriter(s, actions))
            && (SawReader(s, before) || Run(s, before).r != 0 ==> SawReader(s, actions))
            && (SawNoReader(s, before) || Run(s, before).r == 0 ==> SawNoReader(s, actions))
  {
    var n := |actions| - 1;
    forall k | 0 < k <= n ensures actions[..n][..k] == actions[..k] {}
  }

  lemma {:induction false} CallSoFar(s: State, actions: seq<Action>, t: nat, call: Call)
    requires Inv(s) && Begun(s, actions, t, call) && UnderWay(s, actions, t) && !Run(s, actions).threads[t].pc.Idle?
    ensures var th, th' := s.threads[t], Run(s, actions).threads[t];
            && Inv(Run(s, actions)) && Within(call, th'.pc, SawWriter(s, actions), SawReader(s, actions), SawNoReader(s, actions))
            && th'.reading == th.reading && th'.writing == th.writing && (call.Unlock? ==> th'.result == th.result)
  {
    var n := |actions| - 1;
    assert actions[..|actions|] == actions;
    RunKeeps(s, actions[..n]);
    RunKeeps(s, actions);
    if n == 0 {
      assert Run(s, actions[..0]) == s;
    } else {
      CallSoFar(s, actions[..n], t, call);
      CallStep(Run(s, actions[..n]), t, call, actions[n], SawWriter(s, actions[..n]), SawReader(s, actions[..n]), SawNoReader(s, actions[..n]));
      SawMore(s, actions);
    }
  }

  /** In every run, whatever the others do: a lock call returns 0 exactly with one more read
      lock, or the write lock, and EBUSY without a change. Only the try forms return EBUSY,
      and only when they stood at an instant at which there was a writer, or for trywrlock a
      reader. Unlock gives up the side it holds. */
  lemma CallOutcome(s0: State, before: seq<Action>, actions: seq<Action>, t: nat, call: Call)
    requires Init(s0) && IsCall(Run(s0, before), actions, t, call)
    ensures var s := Run(s0, before);
            Outcome(call, s.threads[t], Run(s, actions).threads[t], SawWriter(s, actions), SawReader(s, actions))
  {
    RunInvariant(s0, before);
    var s, n := Run(s0, before), |actions| - 1;
    FirstStep(s, actions, t, call);
    CallSoFar(s, actions[..n], t, call);
    CallStep(Run(s, actions[..n]), t, call, actions[n], SawWriter(s, actions[..n]), SawReader(s, actions[..n]), SawNoReader(s, actions[..n]));
    SawMore(s, actions);
  }

  /** While a wrlock or trywrlock is under way its vthread is in `w` only if there was no reader at
      an instant of the call: it does not keep readers out before that. */
  lemma AnnouncedLater(s0: State, before: seq<Action>, actions: seq<Action>, t: nat, wait: bool)
    requires Init(s0) && Begun(Run(s0, before), actions, t, WriteLock(wait)) && !Run(s0, before).threads[t].writing
    requires UnderWay(Run(s0, before), actions, t) && !Run(Run(s0, before), actions).threads[t].pc.Idle?
    ensures Run(Run(s0, before), actions).w == By(t) ==> SawNoReader(Run(s0, before), actions)
  {
    RunInvariant(s0, before);
    var s := Run(s0, before);
    CallSoFar(s, actions, t, WriteLock(wait));
    assert ThreadOk(Run(s, actions), t);
  }

  /** How many of the steps are those of vthread t. */
  ghost function OwnSteps(actions: seq<Action>, t: nat): nat
  {
    if |actions| == 0 then 0
    else OwnSteps(actions[..|actions| - 1], t) + (if actions[|actions| - 1].thread == t then 1 else 0)
  }

  /** Steps that are left to a try form or an unlock, at most. */
  function StepsLeft(pc: PC): nat
  {
    match pc
    case Idle => 0
    case ReadTest(_) => 4
    case ReadInc(_) => 3
    case ReadCheck(_) => 2
    case ReadUndo(_) => 1
    case WriteTestR(_) => 5
    case WriteTestW(_) => 4
    case WriteCas(_) => 3
    case WriteCheck(_) => 2
    case WriteUndo(_) => 1
    case UnlockTest => 2
    case UnlockWrite => 1
    case UnlockRead => 1
  }

  predicate Waits(call: Call) { !call.Unlock? && call.wait }

  function MostSteps(call: Call): nat
  {
    match call
    case ReadLock(_) => 5
    case WriteLock(_) => 6
    case Unlock => 3
  }

  lemma StepsFall(s: State, t: nat, call: Call, a: Action, writer: bool, reader: bool, free: bool)
    requires t < |s.threads| && !Waits(call) && Within(call, s.threads[t].pc, writer, reader, free)
    ensures StepsLeft(Step(s, a.thread, a.call).threads[t].pc) + (if a.thread == t then 1 else 0) <= StepsLeft(s.threads[t].pc)
  {
    if a.thread != t { OtherStays(s, t, a); }
  }

  /** However the others go on in between, tryrdlock is over within five steps of its own,
      trywrlock within six and unlock within three. */
  lemma {:induction false} TryEnds(s0: State, before: seq<Action>, actions: seq<Action>, t: nat, call: Call)
    requires Init(s0) && Begun(Run(s0, before), actions, t, call) && !Waits(call)
    requires UnderWay(Run(s0, before), actions, t)
    ensures OwnSteps(actions, t) + StepsLeft(Run(Run(s0, before), actions).threads[t].pc) <= MostSteps(call)
    decreases |actions|
  {
    RunInvariant(s0, before);
    var s, n := Run(s0, before), |actions| - 1;
    if n == 0 {
      assert actions[..0] == [] && OwnSteps([], t) == 0;
      assert Run(s, actions) == Step(s, t, call);
    } else {
      TryEnds(s0, before, actions[..n], t, call);
      CallSoFar(s, actions[..n], t, call);
      StepsFall(Run(s, actions[..n]), t, call, actions[n], SawWriter(s, actions[..n]), SawReader(s, actions[..n]), SawNoReader(s, actions[..n]));
    }
  }

  /** Vthread t alone makes n steps. */
  ghost function Alone(s: State, t: nat, call: Call, n: nat): (s': State)
    ensures |s'.threads| == |s.threads|
    decreases n
  {
    if n == 0 then s else Alone(Step(s, t, call), t, call, n - 1)
  }

  /** A free lock is acquired by whoever goes on alone, by any of the forms: a read lock if
      there is no writer, the write lock if there is no reader either. */
  lemma FreeIsAcquired(s0: State, actions: seq<Action>, t: nat, call: Call)
    requires Init(s0) && t < |Run(s0, actions).threads| && Run(s0, actions).threads[t].pc.Idle?
    requires Run(s0, actions).w.Nobody? && !call.Unlock? && (call.WriteLock? ==> Run(s0, actions).r == 0)
    ensures var s, n := Run(s0, actions), if call.ReadLock? then 4 else 5;
            var th := Alone(s, t, call, n).threads[t];
            && th.pc.Idle? && th.result.Granted?
            && (if call.ReadLock? then th.reading == s.threads[t].reading + 1 else th.writing)
  {
    if call.ReadLock? { ReadAlone(Run(s0, actions), t, call.wait); } else { WriteAlone(Run(s0, actions), t, call.wait); }
  }

  /** A step towards a read lock, with no writer there. */
  lemma ReadStep(s: State, t: nat, wait: bool, n: nat) returns (s': State)
    requires t < |s.threads| && s.w.Nobody? && n > 0
    requires s.threads[t].pc.Idle? || s.threads[t].pc == ReadTest(wait) || s.threads[t].pc == ReadInc(wait) || s.threads[t].pc == ReadCheck(wait)
    ensures |s'.threads| == |s.threads| && s'.w.Nobody? && Alone(s, t, ReadLock(wait), n) == Alone(s', t, ReadLock(wait), n - 1)
    ensures var th := s.threads[t];
            s'.threads[t] == (match th.pc
                              case Idle => th.(pc := ReadTest(wait))
                              case ReadTest(_) => th.(pc := ReadInc(wait))
                              case ReadInc(_) => th.(pc := ReadCheck(wait))
                              case _ => Thread(Idle, th.reading + 1, th.writing, Granted))
  {
    s' := Step(s, t, ReadLock(wait));
  }

  lemma ReadAlone(s: State, t: nat, wait: bool)
    requires t < |s.threads| && s.threads[t].pc.Idle? && s.w.Nobody?
    ensures Alone(s, t, ReadLock(wait), 4).threads[t] == Thread(Idle, s.threads[t].reading + 1, s.threads[t].writing, Granted)
  {
    var s1 := ReadStep(s, t, wait, 4);
    s1 := ReadStep(s1, t, wait, 3);
    s1 := ReadStep(s1, t, wait, 2);
    s1 := ReadStep(s1, t, wait, 1);
  }

  /** A step towards the write lock, with no reader or other writer there. */
  lemma WriteStep(s: State, t: nat, wait: bool, n: nat) returns (s': State)
    requires t < |s.threads| && s.r == 0 && n > 0 && (s.w.Nobody? || s.threads[t].pc.WriteCheck?)
    requires s.threads[t].pc.Idle? || s.threads[t].pc == WriteTestR(wait) || s.threads[t].pc == WriteTestW(wait)
          || s.threads[t].pc == WriteCas(wait) || s.threads[t].pc == WriteCheck(wait)
    ensures |s'.threads| == |s.threads| && s'.r == 0 && (s.w.Nobody? ==> s'.w.Nobody? || s'.threads[t].pc.WriteCheck?)
    ensures Alone(s, t, WriteLock(wait), n) == Alone(s', t, WriteLock(wait), n - 1)
    ensures var th := s.threads[t];
            s'.threads[t] == (match th.pc
                              case Idle => th.(pc := WriteTestR(wait))
                              case WriteTestR(_) => th.(pc := WriteTestW(wait))
                              case WriteTestW(_) => th.(pc := WriteCas(wait))
                              case WriteCas(_) => th.(pc := WriteCheck(wait))
                              case _ => Thread(Idle, th.reading, true, Granted))
  {
    s' := Step(s, t, WriteLock(wait));
  }

  lemma WriteTests(s: State, t: nat, wait: bool) returns (s': State)
    requires t < |s.threads| && s.threads[t].pc.Idle? && s.w.Nobody? && s.r == 0
    ensures |s'.threads| == |s.threads| && s'.r == 0 && s'.w.Nobody? && s'.threads[t] == s.threads[t].(pc := WriteCas(wait))
    ensures Alone(s, t, WriteLock(wait), 5) == Alone(s', t, WriteLock(wait), 2)
  {
    s' := WriteStep(s, t, wait, 5);
    s' := WriteStep(s', t, wait, 4);
    s' := WriteStep(s', t, wait, 3);
  }

  lemma WriteAlone(s: State, t: nat, wait: bool)
    requires t < |s.threads| && s.threads[t].pc.Idle? && s.w.Nobody? && s.r == 0
    ensures Alone(s, t, WriteLock(wait), 5).threads[t] == Thread(Idle, s.threads[t].reading, true, Granted)
  {
    var s1 := WriteTests(s, t, wait);
    s1 := WriteStep(s1, t, wait, 2);
    s1 := WriteStep(s1, t, wait, 1);
  }
}
