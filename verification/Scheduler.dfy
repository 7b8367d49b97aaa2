/** The worker loop and the two-queue barrier. Workers take vthreads from the run queue,
    run them until they switch out, and act on the status they return. A vthread at a
    barrier marks itself not runnable, pushes itself on the blocked queue of its round's
    parity and switches out; the last to arrive pops the others and puts them back on the
    run queue, possibly before they have switched out. The run queue is a bag, the blocked
    queues are atomic FIFO queues. One step is one access to shared memory or one switch. */
module Scheduler {
  import opened Counting

  type Vid = nat

  /** Program points of a vthread. It is switched out only at Body, Blocked or Pop. */
  datatype VPC =
    | Body                                   // outside the barrier
    | LoadRound                              // pthread_barrier_wait: about to load cur_round
    | Arrive(r: nat)                         // about to add 1 to cur_waiters
    | SetBlocked(r: nat)                     // about to clear runnable
    | Push(r: nat)                           // about to push itself on the blocked queue
    | Block(r: nat)                          // about to switch out with STATUS_BLOCKED
    | Blocked(r: nat)                        // switched out; once resumed, about to return 0
    | Reset(r: nat, c: nat)                  // last to arrive: about to CAS cur_waiters to 0
    | Advance(r: nat, c: nat)                // about to add 1 to cur_round
    | Pop(r: nat, left: nat)                 // about to pop a waiter; `left` to go
    | Wake(r: nat, left: nat, v: Vid)        // about to put v on the run queue
    | Finished

  /** A vthread. `part` says it uses the barrier. History: rounds arrived in, the results
      returned so far (true for PTHREAD_BARRIER_SERIAL_THREAD), the rounds it was woken in. */
  datatype Vth = Vth(pc: VPC, runnable: bool, part: bool, arrived: nat, results: seq<bool>, wakes: multiset<nat>)

  datatype Status = StFinished | StSuspended | StBlocked | StLockFail

  datatype WPC =
    | Free                          // about to take a vthread from the run queue
    | Got(v: Vid)                   // about to test v->runnable
    | Requeue(v: Vid)               // about to put v back
    | Running(v: Vid)
    | Returned(v: Vid, status: Status)

  /** `even` and `odd` are blocked_vths[0] and blocked_vths[1]. */
  datatype State = State(
    waiters: nat, curWaiters: nat, round: nat, even: seq<Vid>, odd: seq<Vid>,
    run: multiset<Vid>, vths: seq<Vth>, workers: seq<WPC>)

  /** The scheduler's and the vthread's choices. */
  datatype Choice = Take(v: Vid) | Yield | FailLock | Finish | Wait | Continue

  function Queue(s: State, r: nat): seq<Vid> { if r % 2 == 0 then s.even else s.odd }

  function WithQueue(s: State, r: nat, q: seq<Vid>): State
  {
    if r % 2 == 0 then s.(even := q) else s.(odd := q)
  }

  function SetV(s: State, v: Vid, x: Vth): State
    requires v < |s.vths|
  {
    s.(vths := s.vths[v := x])
  }

  function SetW(s: State, w: nat, x: WPC): State
    requires w < |s.workers|
  {
    s.(workers := s.workers[w := x])
  }

  function At(s: State, v: Vid, pc: VPC): State
    requires v < |s.vths|
  {
    SetV(s, v, s.vths[v].(pc := pc))
  }

  /** pthread_barrier_wait returns. */
  function Leave(s: State, v: Vid, serial: bool): State
    requires v < |s.vths|
  {
    SetV(s, v, s.vths[v].(pc := Body, results := s.vths[v].results + [serial]))
  }

  function AfterPops(s: State, v: Vid, r: nat, left: nat): State
    requires v < |s.vths|
  {
    if left > 0 then At(s, v, Pop(r, left)) else Leave(s, v, true)
  }

  function ArriveStep(s: State, v: Vid): State
    requires v < |s.vths| && s.vths[v].pc.Arrive?
  {
    var x := s.vths[v];
    var n := s.curWaiters + 1;
    SetV(s.(curWaiters := n), v,
         x.(arrived := x.arrived + 1, pc := if n != s.waiters then SetBlocked(x.pc.r) else Reset(x.pc.r, n)))
  }

  function PushStep(s: State, v: Vid): State
    requires v < |s.vths| && s.vths[v].pc.Push?
  {
    var r := s.vths[v].pc.r;
    At(WithQueue(s, r, Queue(s, r) + [v]), v, Block(r))
  }

  function ResetStep(s: State, v: Vid): State
    requires v < |s.vths| && s.vths[v].pc.Reset?
  {
    var Reset(r, n) := s.vths[v].pc;
    At(if s.curWaiters == n then s.(curWaiters := 0) else s, v, Advance(r, n))
  }

  function AdvanceStep(s: State, v: Vid): State
    requires v < |s.vths| && s.vths[v].pc.Advance?
  {
    var Advance(r, n) := s.vths[v].pc;
    AfterPops(s.(round := s.round + 1), v, r, if n > 0 then n - 1 else 0)
  }

  function PopStep(s: State, v: Vid): State
    requires v < |s.vths| && s.vths[v].pc.Pop? && |Queue(s, s.vths[v].pc.r)| > 0
  {
    var Pop(r, left) := s.vths[v].pc;
    At(WithQueue(s, r, Queue(s, r)[1..]), v, Wake(r, left, Queue(s, r)[0]))
  }

  function WakeStep(s: State, v: Vid): State
    requires v < |s.vths| && s.vths[v].pc.Wake? && s.vths[v].pc.v < |s.vths|
  {
    var Wake(r, left, u) := s.vths[v].pc;
    AfterPops(SetV(s.(run := s.run + multiset{u}), u, s.vths[u].(wakes := s.vths[u].wakes + multiset{r})),
              v, r, if left > 0 then left - 1 else 0)
  }

  /** A step of vthread `v`'s own code on worker `w`. */
  function VStep(s: State, w: nat, v: Vid, c: Choice): State
    requires w < |s.workers| && v < |s.vths|
  {
    var x := s.vths[v];
    match x.pc
    case Body =>
      (match c
       case Yield => SetW(s, w, Returned(v, StSuspended))
       case FailLock => SetW(s, w, Returned(v, StLockFail))
       case Finish => SetW(At(s, v, Finished), w, Returned(v, StFinished))
       case Wait => if x.part then At(s, v, LoadRound) else s
       case _ => s)
    case LoadRound => At(s, v, Arrive(s.round))
    case Arrive(r) => ArriveStep(s, v)
    case SetBlocked(r) => SetV(s, v, x.(runnable := false, pc := Push(r)))
    case Push(r) => PushStep(s, v)
    case Block(r) => SetW(At(s, v, Blocked(r)), w, Returned(v, StBlocked))
    case Blocked(r) => Leave(s, v, false)
    case Reset(r, n) => ResetStep(s, v)
    case Advance(r, n) => AdvanceStep(s, v)
    case Pop(r, left) => if |Queue(s, r)| > 0 then PopStep(s, v) else SetW(s, w, Returned(v, StSuspended))
    case Wake(r, left, u) => if u < |s.vths| then WakeStep(s, v) else s
    case Finished => s
  }

  /** A step of worker `w`, or of the vthread it runs. */
  function Step(s: State, w: nat, c: Choice): (s': State)
    ensures |s'.vths| == |s.vths| && |s'.workers| == |s.workers|
  {
    if w >= |s.workers| then s else
    match s.workers[w]
    case Free =>
      if c.Take? && c.v in s.run then SetW(s.(run := s.run - multiset{c.v}), w, Got(c.v)) else s
    case Got(v) =>
      if v >= |s.vths| then s else SetW(s, w, if s.vths[v].runnable then Running(v) else Requeue(v))
    case Requeue(v) => SetW(s.(run := s.run + multiset{v}), w, Free)
    case Running(v) => if v >= |s.vths| then s else VStep(s, w, v, c)
    case Returned(v, status) =>
      if v >= |s.vths| then s else
      match status
      case StFinished => SetW(s, w, Free)
      case StBlocked => SetW(SetV(s, v, s.vths[v].(runnable := true)), w, Free)
      case _ => SetW(s.(run := s.run + multiset{v}), w, Free)
  }

  // ---------------------------------------------------------------------------
  // Hand-off invariant: one place per vthread, one runner at most

  /** The one place in the queues (or in transit between them) that a vthread has. */
  datatype Token =
    | NoToken
    | InRun               // on the run queue
    | InQueue(odd: bool)  // on a blocked queue
    | InHand(w: nat)      // worker w took it and has not yet run or requeued it
    | InWake(u: Vid)      // vthread u popped it and has not yet enqueued it

  datatype Runner = NoRunner | By(w: nat)

  datatype Place = Place(token: Token, runner: Runner)

  /** Points at which a vthread is running and has no place in any queue. */
  predicate OnlyRunning(pc: VPC)
  {
    pc.LoadRound? || pc.Arrive? || pc.SetBlocked? || pc.Push? || pc.Reset? || pc.Advance? || pc.Wake?
  }

  /** What a vthread's program point says about its place, its runner and runnable. */
  ghost predicate VthOk(x: Vth, v: Vid, p: Place, workers: seq<WPC>)
  {
    && (p.runner.By? ==> p.runner.w < |workers| && Runs(workers[p.runner.w], v))
    && (p.token.InQueue? || p.token.InWake? ==> x.pc.Block? || x.pc.Blocked?)
    && (if OnlyRunning(x.pc) then
          p.token.NoToken? && p.runner.By? && workers[p.runner.w] == Running(v) && x.runnable == !x.pc.Push?
        else if x.pc.Block? then
          !p.token.NoToken? && p.runner.By? && workers[p.runner.w] == Running(v) && !x.runnable
        else if x.pc.Finished? then
          p.token.NoToken? && (p.runner.By? ==> workers[p.runner.w] == Returned(v, StFinished))
        else if x.pc.Blocked? && p.runner.By? && workers[p.runner.w].Returned? then
          !p.token.NoToken? && !x.runnable && workers[p.runner.w].status.StBlocked?
        else
          && x.runnable && (p.token.NoToken? <==> p.runner.By?)
          && (p.runner.By? && workers[p.runner.w].Returned? ==>
                !x.pc.Blocked? && (workers[p.runner.w].status.StSuspended? || workers[p.runner.w].status.StLockFail?)))
  }

  predicate Runs(x: WPC, v: Vid) { (x.Running? || x.Returned?) && x.v == v }

  ghost predicate WorkerOk(s: State, g: seq<Place>, w: nat)
    requires w < |s.workers|
  {
    match s.workers[w]
    case Free => true
    case Got(v) => v < |g| && g[v].token == InHand(w)
    case Requeue(v) => v < |g| && g[v].token == InHand(w)
    case Running(v) => v < |g| && g[v].runner == By(w)
    case Returned(v, _) => v < |g| && g[v].runner == By(w)
  }

  ghost predicate TokenOk(s: State, g: seq<Place>, v: Vid)
    requires v < |g|
  {
    match g[v].token
    case NoToken => true
    case InRun => true
    case InQueue(_) => true
    case InHand(w) => w < |s.workers| && (s.workers[w] == Got(v) || s.workers[w] == Requeue(v))
    case InWake(u) => u < |s.vths| && s.vths[u].pc.Wake? && s.vths[u].pc.v == v
  }

  ghost predicate NoRepeats(q: seq<Vid>) { forall i, j :: 0 <= i < j < |q| ==> q[i] != q[j] }

  /** The queue holds exactly the vthreads whose token says so. */
  ghost predicate QueueOk(q: seq<Vid>, odd: bool, g: seq<Place>)
  {
    && NoRepeats(q)
    && (forall i :: 0 <= i < |q| ==> q[i] < |g| && g[q[i]].token == InQueue(odd))
    && (forall v :: 0 <= v < |g| && g[v].token == InQueue(odd) ==> v in q)
  }

  /** Parts of the invariant, each stated under `forall u :: Use(part, u) ==> ...` so that a
      proof looks into a part only if it concludes that part or says Use(part, true). */
  datatype Part = TheHandOff | TheCounts | TheUsers

  predicate Use(part: Part, u: bool) { true }

  ghost predicate HandOff(s: State, g: seq<Place>)
  {
    |g| == |s.vths| && forall u :: Use(TheHandOff, u) ==> HandOffParts(s, g)
  }

  ghost predicate HandOffParts(s: State, g: seq<Place>)
  {
    && |g| == |s.vths|
    && (forall v :: 0 <= v < |g| ==> VthOk(s.vths[v], v, g[v], s.workers))
    && (forall v :: 0 <= v < |g| ==> TokenOk(s, g, v))
    && (forall v :: 0 <= v < |g| ==> s.run[v] == (if g[v].token.InRun? then 1 else 0))
    && (forall v :: v >= |g| ==> s.run[v] == 0)
    && (forall v :: 0 <= v < |g| && s.vths[v].pc.Wake? ==>
          s.vths[v].pc.v < |g| && g[s.vths[v].pc.v].token == InWake(v))
    && (forall w :: 0 <= w < |s.workers| ==> WorkerOk(s, g, w))
    && QueueOk(s.even, false, g) && QueueOk(s.odd, true, g)
  }

  // ---------------------------------------------------------------------------
  // Steps keep the hand-off invariant

  /** Tokens that mean the same to the barrier. */
  predicate SameToken(t: Token, t': Token)
  {
    t' == t || (!t.InQueue? && !t.InWake? && !t'.InQueue? && !t'.InWake?)
  }

  /** Only vthread `v` changes place, and not to or from a blocked queue. */
  ghost predicate Moved(g: seq<Place>, g': seq<Place>, v: Vid)
  {
    v < |g| == |g'| && g' == g[v := g'[v]] && SameToken(g[v].token, g'[v].token)
  }

  /** Worker point `x` has to do with vthread `v` only. */
  predicate Concerns(x: WPC, v: Vid) { x.Free? || x.v == v }

  /** Nothing changes but worker `w`, vthread `v` and its place; what another worker does
      with `v` stays. */
  ghost predicate Touches(s: State, g: seq<Place>, s': State, g': seq<Place>, w: nat, v: Vid)
  {
    && w < |s.workers| && v < |s.vths| == |g| && |s'.vths| == |s.vths| && |s'.workers| == |s.workers| && |g'| == |g|
    && s'.workers == s.workers[w := s'.workers[w]] && s'.vths == s.vths[v := s'.vths[v]] && g' == g[v := g'[v]]
    && Concerns(s.workers[w], v) && Concerns(s'.workers[w], v)
    && (g[v].token.InHand? && g[v].token.w != w ==> g'[v].token == g[v].token)
    && (g[v].runner.By? && g[v].runner.w != w ==> g'[v].runner == g[v].runner)
    && !s.vths[v].pc.Wake?
  }

  lemma VthFacts(s: State, g: seq<Place>, v: Vid)
    requires HandOff(s, g) && v < |s.vths|
    ensures VthOk(s.vths[v], v, g[v], s.workers)
  {
    assert Use(TheHandOff, true);
  }

  lemma OthersKeep(s: State, g: seq<Place>, s': State, g': seq<Place>, w: nat, v: Vid)
    requires HandOff(s, g) && Touches(s, g, s', g', w, v)
    ensures forall u :: 0 <= u < |g| && u != v ==> VthOk(s'.vths[u], u, g'[u], s'.workers) && TokenOk(s', g', u)
    ensures forall x :: 0 <= x < |s.workers| && x != w ==> WorkerOk(s', g', x)
  {
    assert Use(TheHandOff, true);
    forall u | 0 <= u < |g| && u != v ensures VthOk(s'.vths[u], u, g'[u], s'.workers) && TokenOk(s', g', u) {
      assert VthOk(s.vths[u], u, g[u], s.workers) && TokenOk(s, g, u);
    }
    forall x | 0 <= x < |s.workers| && x != w ensures WorkerOk(s', g', x) { assert WorkerOk(s, g, x); }
  }

  /** The same queue, when the changed vthread neither was nor is on it. */
  lemma QueueSame(q: seq<Vid>, odd: bool, g: seq<Place>, g': seq<Place>, v: Vid)
    requires QueueOk(q, odd, g) && v < |g| == |g'| && g' == g[v := g'[v]]
    requires g[v].token != InQueue(odd) && g'[v].token != InQueue(odd)
    ensures QueueOk(q, odd, g')
  {
    assert v !in q;
  }

  /** What remains to show after a step that touches worker `w` and vthread `v` only. */
  lemma AssembleWith(s: State, g: seq<Place>, s': State, g': seq<Place>, w: nat, v: Vid)
    requires HandOff(s, g) && Touches(s, g, s', g', w, v) && !s'.vths[v].pc.Wake?
    requires QueueOk(s'.even, false, g') && QueueOk(s'.odd, true, g')
    requires VthOk(s'.vths[v], v, g'[v], s'.workers) && TokenOk(s', g', v) && WorkerOk(s', g', w)
    requires s'.run == s.run[v := if g'[v].token.InRun? then 1 else 0]
    requires g[v].token.InWake? ==> g'[v].token == g[v].token
    ensures HandOff(s', g')
  {
    assert Use(TheHandOff, true);
    OthersKeep(s, g, s', g', w, v);
  }

  /** The same for a step that leaves the blocked queues alone. */
  lemma Assemble(s: State, g: seq<Place>, s': State, g': seq<Place>, w: nat, v: Vid)
    requires HandOff(s, g) && Touches(s, g, s', g', w, v)
    requires s'.even == s.even && s'.odd == s.odd && !s'.vths[v].pc.Wake?
    requires !g[v].token.InQueue? || g'[v].token == g[v].token
    requires !g'[v].token.InQueue? || g'[v].token == g[v].token
    requires VthOk(s'.vths[v], v, g'[v], s'.workers) && TokenOk(s', g', v) && WorkerOk(s', g', w)
    requires s'.run == s.run[v := if g'[v].token.InRun? then 1 else 0]
    requires g[v].token.InWake? ==> g'[v].token == g[v].token
    ensures HandOff(s', g')
  {
    QueuesKept(s, g, g', v);
    AssembleWith(s, g, s', g', w, v);
  }

  lemma QueuesKept(s: State, g: seq<Place>, g': seq<Place>, v: Vid)
    requires HandOff(s, g) && v < |g| == |g'| && g' == g[v := g'[v]]
    requires !g[v].token.InQueue? || g'[v].token == g[v].token
    requires !g'[v].token.InQueue? || g'[v].token == g[v].token
    ensures QueueOk(s.even, false, g') && QueueOk(s.odd, true, g')
  {
    assert Use(TheHandOff, true);
    QueuesSame(s, g, g', v);
  }

  lemma QueuesSame(s: State, g: seq<Place>, g': seq<Place>, v: Vid)
    requires QueueOk(s.even, false, g) && QueueOk(s.odd, true, g) && v < |g| == |g'| && g' == g[v := g'[v]]
    requires !g[v].token.InQueue? || g'[v].token == g[v].token
    requires !g'[v].token.InQueue? || g'[v].token == g[v].token
    ensures QueueOk(s.even, false, g') && QueueOk(s.odd, true, g')
  {
    if !g[v].token.InQueue? {
      QueueSame(s.even, false, g, g', v);
      QueueSame(s.odd, true, g, g', v);
    } else {
      assert forall u :: 0 <= u < |g| ==> g'[u].token == g[u].token;
    }
  }

  lemma KeepFree(s: State, g: seq<Place>, w: nat, v: Vid) returns (g': seq<Place>)
    requires HandOff(s, g) && w < |s.workers| && s.workers[w].Free? && v in s.run
    ensures HandOff(Step(s, w, Take(v)), g') && v < |g| && g' == g[v := g[v].(token := InHand(w))]
    ensures Moved(g, g', v)
  {
    assert Use(TheHandOff, true);
    assert v < |g| && g[v].token.InRun?;
    assert VthOk(s.vths[v], v, g[v], s.workers);
    g' := g[v := g[v].(token := InHand(w))];
    Assemble(s, g, Step(s, w, Take(v)), g', w, v);
  }

  lemma KeepGot(s: State, g: seq<Place>, w: nat, c: Choice) returns (g': seq<Place>)
    requires HandOff(s, g) && w < |s.workers| && s.workers[w].Got?
    ensures HandOff(Step(s, w, c), g')
    ensures Moved(g, g', s.workers[w].v)
  {
    assert Use(TheHandOff, true);
    var v := s.workers[w].v;
    assert WorkerOk(s, g, w) && VthOk(s.vths[v], v, g[v], s.workers) && TokenOk(s, g, v);
    g' := if s.vths[v].runnable then g[v := Place(NoToken, By(w))] else g;
    Assemble(s, g, Step(s, w, c), g', w, v);
  }

  lemma KeepRequeue(s: State, g: seq<Place>, w: nat, c: Choice) returns (g': seq<Place>)
    requires HandOff(s, g) && w < |s.workers| && s.workers[w].Requeue?
    ensures HandOff(Step(s, w, c), g')
    ensures Moved(g, g', s.workers[w].v)
  {
    assert Use(TheHandOff, true);
    var v := s.workers[w].v;
    assert WorkerOk(s, g, w) && VthOk(s.vths[v], v, g[v], s.workers) && TokenOk(s, g, v);
    g' := g[v := g[v].(token := InRun)];
    Assemble(s, g, Step(s, w, c), g', w, v);
  }

  lemma KeepReturned(s: State, g: seq<Place>, w: nat, c: Choice) returns (g': seq<Place>)
    requires HandOff(s, g) && w < |s.workers| && s.workers[w].Returned?
    ensures HandOff(Step(s, w, c), g')
    ensures Moved(g, g', s.workers[w].v)
  {
    assert Use(TheHandOff, true);
    var Returned(v, status) := s.workers[w];
    assert WorkerOk(s, g, w) && VthOk(s.vths[v], v, g[v], s.workers) && TokenOk(s, g, v);
    g' := g[v := Place(if status.StSuspended? || status.StLockFail? then InRun else g[v].token, NoRunner)];
    Assemble(s, g, Step(s, w, c), g', w, v);
  }

  /** Points whose step leaves the queues alone. */
  predicate Stays(s: State, pc: VPC) { !pc.Push? && !pc.Wake? && !(pc.Pop? && |Queue(s, pc.r)| > 0) }

  /** What a vthread on worker `w` changes at such a point. */
  lemma RunningShape(s: State, w: nat, v: Vid, c: Choice)
    requires w < |s.workers| && s.workers[w] == Running(v) && v < |s.vths| && Stays(s, s.vths[v].pc)
    ensures var s' := Step(s, w, c);
            && s'.workers == s.workers[w := s'.workers[w]] && s'.vths == s.vths[v := s'.vths[v]]
            && s'.even == s.even && s'.odd == s.odd && s'.run == s.run && Runs(s'.workers[w], v)
            && !s'.vths[v].pc.Wake?
  {
  }

  lemma RunningPlace(s: State, w: nat, v: Vid, c: Choice, p: Place)
    requires w < |s.workers| && s.workers[w] == Running(v) && v < |s.vths| && Stays(s, s.vths[v].pc)
    requires VthOk(s.vths[v], v, p, s.workers) && p.runner == By(w)
    ensures VthOk(Step(s, w, c).vths[v], v, p, Step(s, w, c).workers)
  {
    match s.vths[v].pc
    case Body => match c { case Finish => case _ => }
    case _ =>
  }

  /** Steps of a running vthread that leave it its place. */
  lemma KeepRunning(s: State, g: seq<Place>, w: nat, c: Choice)
    requires HandOff(s, g) && w < |s.workers| && s.workers[w].Running? && s.workers[w].v < |s.vths|
    requires Stays(s, s.vths[s.workers[w].v].pc)
    ensures HandOff(Step(s, w, c), g)
  {
    assert Use(TheHandOff, true);
    var v := s.workers[w].v;
    assert WorkerOk(s, g, w) && VthOk(s.vths[v], v, g[v], s.workers) && TokenOk(s, g, v);
    RunningShape(s, w, v, c);
    RunningPlace(s, w, v, c, g[v]);
    assert g == g[v := g[v]];
    Assemble(s, g, Step(s, w, c), g, w, v);
  }

  lemma KeepPush(s: State, g: seq<Place>, w: nat, v: Vid) returns (g': seq<Place>)
    requires HandOff(s, g) && w < |s.workers| && s.workers[w] == Running(v) && v < |s.vths|
    requires s.vths[v].pc.Push?
    ensures HandOff(PushStep(s, v), g')
    ensures g' == g[v := Place(InQueue(s.vths[v].pc.r % 2 == 1), By(w))]
  {
    g' := g[v := Place(InQueue(s.vths[v].pc.r % 2 == 1), By(w))];
    PushPlace(s, g, w, v);
    PushQueues(s, g, g', v);
    AssembleWith(s, g, PushStep(s, v), g', w, v);
  }

  lemma PushPlace(s: State, g: seq<Place>, w: nat, v: Vid)
    requires HandOff(s, g) && w < |s.workers| && s.workers[w] == Running(v) && v < |s.vths| && s.vths[v].pc.Push?
    ensures g[v].token.NoToken? && g[v].runner == By(w) && s.run[v] == 0
    ensures var s', g' := PushStep(s, v), g[v := Place(InQueue(s.vths[v].pc.r % 2 == 1), By(w))];
            && Touches(s, g, s', g', w, v) && s'.run == s.run && s'.run == s.run[v := 0]
            && VthOk(s'.vths[v], v, g'[v], s'.workers) && TokenOk(s', g', v) && WorkerOk(s', g', w)
  {
    assert Use(TheHandOff, true);
    assert WorkerOk(s, g, w) && VthOk(s.vths[v], v, g[v], s.workers);
  }

  lemma PushQueues(s: State, g: seq<Place>, g': seq<Place>, v: Vid)
    requires HandOff(s, g) && v < |s.vths| && s.vths[v].pc.Push? && g[v].token.NoToken?
    requires |g'| == |g| && g' == g[v := g'[v]] && g'[v].token == InQueue(s.vths[v].pc.r % 2 == 1)
    ensures QueueOk(PushStep(s, v).even, false, g') && QueueOk(PushStep(s, v).odd, true, g')
  {
    assert Use(TheHandOff, true);
    var odd := s.vths[v].pc.r % 2 == 1;
    PushQueue(Queue(s, s.vths[v].pc.r), odd, g, g', v);
    if odd { QueueSame(s.even, false, g, g', v); } else { QueueSame(s.odd, true, g, g', v); }
  }

  lemma PushQueue(q: seq<Vid>, odd: bool, g: seq<Place>, g': seq<Place>, v: Vid)
    requires QueueOk(q, odd, g) && v < |g| == |g'| && g' == g[v := g'[v]]
    requires g[v].token != InQueue(odd) && g'[v].token == InQueue(odd)
    ensures QueueOk(q + [v], odd, g')
  {
    assert v !in q;
  }

  lemma PopQueue(q: seq<Vid>, odd: bool, g: seq<Place>, g': seq<Place>)
    requires QueueOk(q, odd, g) && |q| > 0 && |g| == |g'| && g' == g[q[0] := g'[q[0]]]
    requires g'[q[0]].token != InQueue(odd)
    ensures QueueOk(q[1..], odd, g')
  {
    assert q == [q[0]] + q[1..];
  }

  /** The place of `u` changes by a step of vthread `v`. */
  lemma TransferKeeps(s: State, g: seq<Place>, s': State, g': seq<Place>, v: Vid, u: Vid)
    requires HandOff(s, g) && s'.workers == s.workers && |s'.vths| == |s.vths| == |g'|
    requires v < |g| && u < |g| && v != u && g' == g[u := g[u].(token := g'[u].token)] && !g[u].token.InHand?
    requires forall x :: 0 <= x < |g| && x != v ==>
               s'.vths[x].pc == s.vths[x].pc && s'.vths[x].runnable == s.vths[x].runnable
    requires s.vths[v].pc.Wake? ==> s.vths[v].pc.v == u
    ensures forall x :: 0 <= x < |g| && x != v && x != u ==> VthOk(s'.vths[x], x, g'[x], s'.workers) && TokenOk(s', g', x)
    ensures forall x :: 0 <= x < |s.workers| ==> WorkerOk(s', g', x)
  {
    assert Use(TheHandOff, true);
    forall x | 0 <= x < |g| && x != v && x != u ensures VthOk(s'.vths[x], x, g'[x], s'.workers) && TokenOk(s', g', x) {
      assert VthOk(s.vths[x], x, g[x], s.workers) && TokenOk(s, g, x);
    }
    forall x | 0 <= x < |s.workers| ensures WorkerOk(s', g', x) { assert WorkerOk(s, g, x); }
  }

  lemma PopQueues(s: State, g: seq<Place>, g': seq<Place>, r: nat)
    requires QueueOk(s.even, false, g) && QueueOk(s.odd, true, g) && |Queue(s, r)| > 0
    requires var u := Queue(s, r)[0]; u < |g| == |g'| && g' == g[u := g'[u]] && !g'[u].token.InQueue?
    ensures var s' := WithQueue(s, r, Queue(s, r)[1..]);
            QueueOk(s'.even, false, g') && QueueOk(s'.odd, true, g')
  {
    var odd := r % 2 == 1;
    var u := Queue(s, r)[0];
    PopQueue(Queue(s, r), odd, g, g');
    if odd { QueueSame(s.even, false, g, g', u); } else { QueueSame(s.odd, true, g, g', u); }
  }

  /** A popped vthread is in transit in the waker's hands. */
  lemma KeepPop(s: State, g: seq<Place>, w: nat, v: Vid) returns (g': seq<Place>)
    requires HandOff(s, g) && w < |s.workers| && s.workers[w] == Running(v) && v < |s.vths|
    requires var pc := s.vths[v].pc; pc.Pop? && |Queue(s, pc.r)| > 0
    ensures HandOff(PopStep(s, v), g')
    ensures var u := Queue(s, s.vths[v].pc.r)[0];
            u < |g| && g' == g[u := g[u].(token := InWake(v))]
  {
    var r, u := s.vths[v].pc.r, Queue(s, s.vths[v].pc.r)[0];
    PopPlaces(s, g, w, v);
    g' := g[u := g[u].(token := InWake(v))];
    NotInTransit(s, g, u);
    PopHeld(s, g, v, r);
    PopRest(s, g, v, u, PopStep(s, v), g');
  }

  /** The waker and the vthread it pops. */
  lemma PopPlaces(s: State, g: seq<Place>, w: nat, v: Vid)
    requires HandOff(s, g) && w < |s.workers| && s.workers[w] == Running(v) && v < |s.vths|
    requires var pc := s.vths[v].pc; pc.Pop? && |Queue(s, pc.r)| > 0
    ensures var u := Queue(s, s.vths[v].pc.r)[0];
            && u < |g| && u != v && g[u].token.InQueue?
            && (var s', g' := PopStep(s, v), g[u := g[u].(token := InWake(v))];
                && VthOk(s'.vths[v], v, g'[v], s'.workers) && TokenOk(s', g', v)
                && VthOk(s'.vths[u], u, g'[u], s'.workers) && TokenOk(s', g', u))
  {
    assert Use(TheHandOff, true);
    var u := Queue(s, s.vths[v].pc.r)[0];
    assert WorkerOk(s, g, w) && VthOk(s.vths[v], v, g[v], s.workers) && TokenOk(s, g, v);
    assert u < |g| && g[u].token.InQueue? && VthOk(s.vths[u], u, g[u], s.workers);
  }

  /** The queues after the pop. */
  lemma PopHeld(s: State, g: seq<Place>, v: Vid, r: nat)
    requires HandOff(s, g) && v < |s.vths| && |Queue(s, r)| > 0 && Queue(s, r)[0] < |g|
    ensures var u, s' := Queue(s, r)[0], WithQueue(s, r, Queue(s, r)[1..]);
            var g' := g[u := g[u].(token := InWake(v))];
            QueueOk(s'.even, false, g') && QueueOk(s'.odd, true, g')
  {
    assert Use(TheHandOff, true);
    PopQueues(s, g, g[Queue(s, r)[0] := g[Queue(s, r)[0]].(token := InWake(v))], r);
  }

  /** Everybody else. */
  lemma PopRest(s: State, g: seq<Place>, v: Vid, u: Vid, s': State, g': seq<Place>)
    requires HandOff(s, g) && v < |g| && u < |g| && u != v && g[u].token.InQueue? && !s.vths[v].pc.Wake?
    requires s'.workers == s.workers && s'.run == s.run && |s'.vths| == |s.vths| && g' == g[u := g[u].(token := InWake(v))]
    requires s'.vths == s.vths[v := s'.vths[v]] && s'.vths[v].pc.Wake? && s'.vths[v].pc.v == u
    requires VthOk(s'.vths[v], v, g'[v], s'.workers) && TokenOk(s', g', v)
    requires VthOk(s'.vths[u], u, g'[u], s'.workers) && TokenOk(s', g', u)
    requires QueueOk(s'.even, false, g') && QueueOk(s'.odd, true, g')
    requires forall x :: 0 <= x < |g| && s.vths[x].pc.Wake? ==> s.vths[x].pc.v != u
    ensures HandOff(s', g')
  {
    assert Use(TheHandOff, true);
    TransferKeeps(s, g, s', g', v, u);
  }

  /** What is on a blocked queue is in nobody's hands. */
  lemma NotInTransit(s: State, g: seq<Place>, u: Vid)
    requires HandOff(s, g) && u < |g| && g[u].token.InQueue?
    ensures forall x :: 0 <= x < |g| && s.vths[x].pc.Wake? ==> s.vths[x].pc.v != u
  {
    assert Use(TheHandOff, true);
  }

  /** The record of a waker with `left` to go once it has enqueued one. */
  function WakerAfter(x: Vth): Vth
    requires x.pc.Wake?
  {
    if x.pc.left > 1 then x.(pc := Pop(x.pc.r, x.pc.left - 1)) else x.(pc := Body, results := x.results + [true])
  }

  lemma WakeShape(s: State, v: Vid)
    requires v < |s.vths| && s.vths[v].pc.Wake? && s.vths[v].pc.v < |s.vths| && s.vths[v].pc.v != v
    ensures var u, s' := s.vths[v].pc.v, WakeStep(s, v);
            && s'.vths == s.vths[u := s.vths[u].(wakes := s.vths[u].wakes + multiset{s.vths[v].pc.r})][v := WakerAfter(s.vths[v])]
            && s'.round == s.round && s'.waiters == s.waiters && s'.curWaiters == s.curWaiters
            && s'.even == s.even && s'.odd == s.odd
            && s'.workers == s.workers && s'.run == s.run + multiset{u}
  {
  }

  lemma KeepWake(s: State, g: seq<Place>, w: nat, v: Vid) returns (g': seq<Place>)
    requires HandOff(s, g) && w < |s.workers| && s.workers[w] == Running(v) && v < |s.vths|
    requires s.vths[v].pc.Wake?
    ensures s.vths[v].pc.v < |s.vths| && HandOff(WakeStep(s, v), g')
    ensures g' == g[s.vths[v].pc.v := g[s.vths[v].pc.v].(token := InRun)]
  {
    assert Use(TheHandOff, true);
    var u := s.vths[v].pc.v;
    assert WorkerOk(s, g, w) && VthOk(s.vths[v], v, g[v], s.workers);
    assert g[u].token == InWake(v) && VthOk(s.vths[u], u, g[u], s.workers);
    g' := g[u := g[u].(token := InRun)];
    var s' := WakeStep(s, v);
    WakeShape(s, v);
    QueuesSame(s, g, g', u);
    TransferKeeps(s, g, s', g', v, u);
    assert VthOk(s'.vths[v], v, g'[v], s'.workers) && TokenOk(s', g', v);
    assert VthOk(s'.vths[u], u, g'[u], s'.workers) && TokenOk(s', g', u);
  }

  // ---------------------------------------------------------------------------
  // Barrier invariant

  /** The last to arrive, if it is still at work: before or after advancing the round. */
  datatype Serial = NoSerial | Closing(v: Vid) | Waking(v: Vid)

  /** Witness: who was the last to arrive in each round, and what it is doing now. */
  datatype Rounds = Rounds(serialOf: seq<Vid>, serial: Serial)

  predicate IsClosing(pc: VPC) { pc.Reset? || pc.Advance? }
  predicate IsWaking(pc: VPC) { pc.Pop? || pc.Wake? }
  predicate IsWaiting(pc: VPC) { pc.SetBlocked? || pc.Push? || pc.Block? || pc.Blocked? }

  /** Popped from the blocked queue and put on the run queue. */
  predicate Woken(pc: VPC, t: Token) { (pc.Block? || pc.Blocked?) && !t.InQueue? && !t.InWake? }

  function PartOf(x: Vth): nat { if x.part then 1 else 0 }

  function ArrivedIn(x: Vth, r: int): nat { if x.part && x.arrived == r + 1 then 1 else 0 }
  function ArrivedFn(r: int): Vth -> nat { (x: Vth) => ArrivedIn(x, r) }

  /** Arrived in round `r` as a waiter and not yet on the blocked queue. */
  function UnpushedIn(x: Vth, r: int): nat { if (x.pc.SetBlocked? || x.pc.Push?) && x.pc.r == r then 1 else 0 }
  function UnpushedFn(r: int): Vth -> nat { (x: Vth) => UnpushedIn(x, r) }

  /** Waiters of the current round not yet popped, and of the round before. */
  ghost function Now(s: State): nat { |Queue(s, s.round)| + Sum(s.vths, UnpushedFn(s.round)) }
  ghost function Before(s: State): nat { |Queue(s, s.round + 1)| + Sum(s.vths, UnpushedFn(s.round - 1)) }

  /** Where a user of the barrier stands when `round` rounds are complete. */
  ghost predicate StageOk(x: Vth, t: Token, round: nat, waiters: nat)
  {
    var d := |x.results|;
    match x.pc
    case Body => x.arrived == d == round
    case LoadRound => x.arrived == d == round
    case Finished => x.arrived == d == round
    case Arrive(r) => x.arrived == d == round == r
    case SetBlocked(r) => WaitingIn(x, r, round)
    case Push(r) => WaitingIn(x, r, round)
    case Block(r) => WaitingIn(x, r, round) && PlacedIn(t, r, round)
    case Blocked(r) => WaitingIn(x, r, round) && PlacedIn(t, r, round)
    case Reset(r, n) => r == d == round && x.arrived == round + 1 && n == waiters
    case Advance(r, n) => r == d == round && x.arrived == round + 1 && n == waiters
    case Pop(r, left) => r == d && r + 1 == round == x.arrived && left > 0
    case Wake(r, left, _) => r == d && r + 1 == round == x.arrived && left > 0
  }

  ghost predicate WaitingIn(x: Vth, r: nat, round: nat)
  {
    x.arrived == r + 1 && |x.results| == r && (r == round || r + 1 == round)
  }

  /** A waiter is on the queue of its round's parity until it is popped, which happens
      only once its round is complete. */
  ghost predicate PlacedIn(t: Token, r: nat, round: nat)
  {
    if t.InQueue? then t.odd == (r % 2 == 1) else r + 1 == round
  }

  ghost predicate HistoryOk(x: Vth, v: Vid, t: Token, serialOf: seq<Vid>)
  {
    && |x.results| <= |serialOf|
    && (forall k :: 0 <= k < |x.results| ==> (x.results[k] <==> serialOf[k] == v))
    && (forall k :: x.wakes[k] == WakesIn(x, t, k))
    && (IsWaiting(x.pc) && |x.results| < |serialOf| ==> serialOf[|x.results|] != v)
  }

  ghost function WakesIn(x: Vth, t: Token, k: int): nat
  {
    if 0 <= k < |x.results| then (if x.results[k] then 0 else 1)
    else if k == |x.results| && Woken(x.pc, t) then 1 else 0
  }

  ghost predicate UserOk(x: Vth, v: Vid, t: Token, round: nat, waiters: nat, b: Rounds)
  {
    && (if x.part then StageOk(x, t, round, waiters) && HistoryOk(x, v, t, b.serialOf)
        else (x.pc.Body? || x.pc.Finished?))
    && (IsClosing(x.pc) <==> b.serial == Closing(v))
    && (IsWaking(x.pc) <==> b.serial == Waking(v))
  }

  ghost predicate CountsOk(s: State, b: Rounds)
  {
    forall u :: Use(TheCounts, u) ==> CountsParts(s, b)
  }

  ghost predicate CountsParts(s: State, b: Rounds)
  {
    && Sum(s.vths, PartOf) == s.waiters
    && (b.serial.Closing? || s.waiters == 0 || s.curWaiters < s.waiters)
    && |b.serialOf| == s.round + (if b.serial.Closing? then 1 else 0)
    && (forall k :: 0 <= k < |b.serialOf| ==> b.serialOf[k] < |s.vths| && s.vths[b.serialOf[k]].part)
    && match b.serial
       case NoSerial => s.curWaiters == Sum(s.vths, ArrivedFn(s.round)) == Now(s) && Before(s) == 0
       case Closing(v) =>
         && v < |s.vths| && b.serialOf[s.round] == v && IsClosing(s.vths[v].pc)
         && s.curWaiters == (if s.vths[v].pc.Reset? then s.waiters else 0)
         && Now(s) + 1 == s.waiters && Before(s) == 0
         && (forall u :: 0 <= u < |s.vths| && s.vths[u].part ==> s.vths[u].arrived == s.round + 1)
       case Waking(v) =>
         && v < |s.vths| && s.round > 0 && b.serialOf[s.round - 1] == v && IsWaking(s.vths[v].pc)
         && s.curWaiters == Sum(s.vths, ArrivedFn(s.round)) == Now(s)
         && Before(s) + (if s.vths[v].pc.Wake? then 1 else 0) == s.vths[v].pc.left
  }

  ghost predicate Barrier(s: State, g: seq<Place>, b: Rounds)
  {
    CountsOk(s, b) && Users(s.vths, g, s.round, s.waiters, b)
  }

  ghost predicate Users(vths: seq<Vth>, g: seq<Place>, round: nat, waiters: nat, b: Rounds)
  {
    |g| == |vths| && forall u :: Use(TheUsers, u) ==> UsersParts(vths, g, round, waiters, b)
  }

  ghost predicate UsersParts(vths: seq<Vth>, g: seq<Place>, round: nat, waiters: nat, b: Rounds)
  {
    && |g| == |vths|
    && (forall v :: 0 <= v < |vths| ==> UserOk(vths[v], v, g[v].token, round, waiters, b))
  }

  // ---------------------------------------------------------------------------
  // Steps keep the barrier invariant

  lemma UserFacts(s: State, g: seq<Place>, b: Rounds, v: Vid)
    requires Barrier(s, g, b) && v < |s.vths|
    ensures UserOk(s.vths[v], v, g[v].token, s.round, s.waiters, b)
  {
    assert Use(TheUsers, true);
  }

  /** What the counters say about the last to arrive. */
  lemma SerialFacts(s: State, b: Rounds)
    requires CountsOk(s, b)
    ensures |b.serialOf| == s.round + (if b.serial.Closing? then 1 else 0)
    ensures forall k :: 0 <= k < |b.serialOf| ==> b.serialOf[k] < |s.vths| && s.vths[b.serialOf[k]].part
    ensures b.serial.Closing? ==> b.serial.v < |s.vths| && b.serialOf[s.round] == b.serial.v
    ensures b.serial.Closing? ==> forall u :: 0 <= u < |s.vths| && s.vths[u].part ==> s.vths[u].arrived == s.round + 1
    ensures b.serial.Waking? ==> b.serial.v < |s.vths| && s.round > 0 && b.serialOf[s.round - 1] == b.serial.v
  {
    assert Use(TheCounts, true);
  }

  /** A barrier that somebody uses has waiters. */
  lemma SomebodyWaits(s: State, b: Rounds, v: Vid)
    requires CountsOk(s, b) && v < |s.vths| && s.vths[v].part
    ensures s.waiters > 0
  {
    assert Use(TheCounts, true);
    SumMember(s.vths, v, PartOf);
  }

  lemma SumsUpdate(s: State, v: Vid, x: Vth, r: int)
    requires v < |s.vths|
    ensures var vths' := s.vths[v := x];
            && Sum(vths', PartOf) == Sum(s.vths, PartOf) - PartOf(s.vths[v]) + PartOf(x)
            && Sum(vths', ArrivedFn(r)) == Sum(s.vths, ArrivedFn(r)) - ArrivedIn(s.vths[v], r) + ArrivedIn(x, r)
            && Sum(vths', UnpushedFn(r)) == Sum(s.vths, UnpushedFn(r)) - UnpushedIn(s.vths[v], r) + UnpushedIn(x, r)
  {
    SumUpdate(s.vths, v, x, PartOf);
    SumUpdate(s.vths, v, x, ArrivedFn(r));
    SumUpdate(s.vths, v, x, UnpushedFn(r));
  }

  /** A change of one vthread that no count depends on. */
  lemma SumsSame(vths: seq<Vth>, v: Vid, x: Vth, round: nat)
    requires v < |vths| && x.part == vths[v].part && x.arrived == vths[v].arrived
    requires UnpushedIn(x, round) == UnpushedIn(vths[v], round)
    requires UnpushedIn(x, round - 1) == UnpushedIn(vths[v], round - 1)
    ensures Sum(vths[v := x], PartOf) == Sum(vths, PartOf)
    ensures Sum(vths[v := x], ArrivedFn(round)) == Sum(vths, ArrivedFn(round))
    ensures Sum(vths[v := x], UnpushedFn(round)) == Sum(vths, UnpushedFn(round))
    ensures Sum(vths[v := x], UnpushedFn(round - 1)) == Sum(vths, UnpushedFn(round - 1))
  {
    SumUpdate(vths, v, x, PartOf);
    SumUpdate(vths, v, x, ArrivedFn(round));
    SumUpdate(vths, v, x, UnpushedFn(round));
    SumUpdate(vths, v, x, UnpushedFn(round - 1));
  }

  ghost predicate SameCounts(s: State, s': State)
  {
    && s'.waiters == s.waiters && s'.curWaiters == s.curWaiters && s'.round == s.round
    && Sum(s'.vths, PartOf) == Sum(s.vths, PartOf)
    && Sum(s'.vths, ArrivedFn(s.round)) == Sum(s.vths, ArrivedFn(s.round))
    && Now(s') == Now(s) && Before(s') == Before(s)
  }

  /** What CountsOk depends on. */
  lemma CountsKeep(s: State, b: Rounds, s': State, v: Vid)
    requires CountsOk(s, b) && SameCounts(s, s') && v < |s.vths| == |s'.vths| && s'.vths == s.vths[v := s'.vths[v]]
    requires s'.vths[v].part == s.vths[v].part && s'.vths[v].arrived == s.vths[v].arrived
    requires !b.serial.NoSerial? && b.serial.v == v ==> s'.vths[v].pc == s.vths[v].pc
    ensures CountsOk(s', b)
  {
  }

  /** The counters do not depend on a change of one vthread that is no arrival, no push
      and nothing the last to arrive does. */
  lemma CountsSame(s: State, b: Rounds, s': State, v: Vid)
    requires CountsOk(s, b) && v < |s.vths| == |s'.vths| && s'.vths == s.vths[v := s'.vths[v]]
    requires s'.waiters == s.waiters && s'.curWaiters == s.curWaiters && s'.round == s.round
    requires s'.even == s.even && s'.odd == s.odd
    requires s'.vths[v].part == s.vths[v].part && s'.vths[v].arrived == s.vths[v].arrived
    requires UnpushedIn(s'.vths[v], s.round) == UnpushedIn(s.vths[v], s.round)
    requires UnpushedIn(s'.vths[v], s.round - 1) == UnpushedIn(s.vths[v], s.round - 1)
    requires !b.serial.NoSerial? && b.serial.v == v ==> s'.vths[v].pc == s.vths[v].pc
    ensures CountsOk(s', b)
  {
    SumsSame(s.vths, v, s'.vths[v], s.round);
    CountsKeep(s, b, s', v);
  }

  /** The history facts of a vthread that has neither returned nor been woken meanwhile. */
  lemma HistorySame(x: Vth, v: Vid, t: Token, x': Vth, t': Token, serialOf: seq<Vid>)
    requires HistoryOk(x, v, t, serialOf) && x'.results == x.results && x'.wakes == x.wakes
    requires Woken(x'.pc, t') == Woken(x.pc, t) && (IsWaiting(x'.pc) ==> IsWaiting(x.pc) || |x.results| == |serialOf|)
    ensures HistoryOk(x', v, t', serialOf)
  {
    forall k ensures x'.wakes[k] == WakesIn(x', t', k) { assert x.wakes[k] == WakesIn(x, t, k); }
  }

  /** What a vthread's facts depend on of its record and token. */
  lemma UserSame(x: Vth, v: Vid, t: Token, x': Vth, t': Token, round: nat, waiters: nat, b: Rounds)
    requires UserOk(x, v, t, round, waiters, b) && SameToken(t, t') && x' == x.(runnable := x'.runnable)
    ensures UserOk(x', v, t', round, waiters, b)
  {
    if x.part { HistorySame(x, v, t, x', t', b.serialOf); }
  }

  /** A step that changes no program point, history or counter, and moves a vthread only
      between places the barrier does not distinguish. */
  lemma BarrierSame(s: State, g: seq<Place>, b: Rounds, s': State, g': seq<Place>, v: Vid)
    requires Barrier(s, g, b) && v < |s.vths| == |g'|
    requires s'.waiters == s.waiters && s'.curWaiters == s.curWaiters && s'.round == s.round
    requires s'.even == s.even && s'.odd == s.odd && |s'.vths| == |s.vths|
    requires s'.vths == s.vths[v := s'.vths[v]] && s'.vths[v] == s.vths[v].(runnable := s'.vths[v].runnable)
    requires g' == g[v := g'[v]] && SameToken(g[v].token, g'[v].token)
    ensures Barrier(s', g', b)
  {
    assert Use(TheUsers, true);
    CountsSame(s, b, s', v);
    forall u | 0 <= u < |s.vths| ensures UserOk(s'.vths[u], u, g'[u].token, s.round, s.waiters, b) {
      UserSame(s.vths[u], u, g[u].token, s'.vths[u], g'[u].token, s.round, s.waiters, b);
    }
  }

  /** A change of one vthread, of its token and of the counters. */
  lemma BarrierMoves(s: State, g: seq<Place>, b: Rounds, s': State, g': seq<Place>, v: Vid)
    requires Barrier(s, g, b) && v < |s.vths| == |s'.vths| == |g'| && s'.vths == s.vths[v := s'.vths[v]]
    requires g' == g[v := g'[v]]
    requires s'.round == s.round && s'.waiters == s.waiters && CountsOk(s', b)
    requires UserOk(s'.vths[v], v, g'[v].token, s.round, s.waiters, b)
    ensures Barrier(s', g', b)
  {
  }

  lemma BarrierBody(s: State, g: seq<Place>, b: Rounds, v: Vid, pc: VPC)
    requires Barrier(s, g, b) && v < |s.vths| && (s.vths[v].pc.Body? || s.vths[v].pc.LoadRound?)
    requires pc == Finished || (s.vths[v].part && (pc == LoadRound || pc == Arrive(s.round)))
    ensures Barrier(At(s, v, pc), g, b)
  {
    UserFacts(s, g, b, v);
    var x, x', t := s.vths[v], s.vths[v].(pc := pc), g[v].token;
    CountsSame(s, b, At(s, v, pc), v);
    if x.part { HistorySame(x, v, t, x', t, b.serialOf); }
    BarrierMoves(s, g, b, At(s, v, pc), g, v);
  }

  lemma BarrierSetBlocked(s: State, g: seq<Place>, b: Rounds, v: Vid)
    requires Barrier(s, g, b) && v < |s.vths| && s.vths[v].pc.SetBlocked?
    ensures Barrier(SetV(s, v, s.vths[v].(pc := Push(s.vths[v].pc.r), runnable := false)), g, b)
  {
    UserFacts(s, g, b, v);
    var x, t := s.vths[v], g[v].token;
    var x' := x.(pc := Push(x.pc.r), runnable := false);
    CountsSame(s, b, SetV(s, v, x'), v);
    HistorySame(x, v, t, x', t, b.serialOf);
    BarrierMoves(s, g, b, SetV(s, v, x'), g, v);
  }

  lemma BarrierBlock(s: State, g: seq<Place>, b: Rounds, v: Vid)
    requires Barrier(s, g, b) && v < |s.vths| && s.vths[v].pc.Block?
    ensures Barrier(At(s, v, Blocked(s.vths[v].pc.r)), g, b)
  {
    UserFacts(s, g, b, v);
    var x, t := s.vths[v], g[v].token;
    var x' := x.(pc := Blocked(x.pc.r));
    CountsSame(s, b, SetV(s, v, x'), v);
    HistorySame(x, v, t, x', t, b.serialOf);
    BarrierMoves(s, g, b, SetV(s, v, x'), g, v);
  }

  /** Effect of an arrival in the current round on the counts. */
  lemma CountsArrive(s: State, v: Vid)
    requires v < |s.vths| && s.vths[v].pc.Arrive? && s.vths[v].pc.r == s.round
    requires s.vths[v].part && s.vths[v].arrived == s.round
    ensures var s' := ArriveStep(s, v);
            && Sum(s'.vths, PartOf) == Sum(s.vths, PartOf)
            && Sum(s'.vths, ArrivedFn(s.round)) == Sum(s.vths, ArrivedFn(s.round)) + 1
            && Now(s') == Now(s) + (if s.curWaiters + 1 != s.waiters then 1 else 0) && Before(s') == Before(s)
  {
    SumsUpdate(s, v, ArriveStep(s, v).vths[v], s.round);
    SumsUpdate(s, v, ArriveStep(s, v).vths[v], s.round - 1);
  }

  lemma ArriveUser(x: Vth, v: Vid, t: Token, round: nat, waiters: nat, b: Rounds)
    requires UserOk(x, v, t, round, waiters, b) && x.pc.Arrive?
    ensures x.part && x.pc.r == x.arrived == |x.results| == round && (b.serial.NoSerial? || b.serial.v != v)
    ensures |b.serialOf| == round ==>
              UserOk(x.(arrived := x.arrived + 1, pc := SetBlocked(round)), v, t, round, waiters, b)
  {
    if |b.serialOf| == round {
      HistorySame(x, v, t, x.(arrived := x.arrived + 1, pc := SetBlocked(round)), t, b.serialOf);
    }
  }

  lemma CountsWaiter(s: State, b: Rounds, v: Vid)
    requires CountsOk(s, b) && v < |s.vths| && s.vths[v].pc == Arrive(s.round) && s.vths[v].part
    requires s.vths[v].arrived == s.round && s.curWaiters + 1 != s.waiters && (b.serial.NoSerial? || b.serial.v != v)
    ensures CountsOk(ArriveStep(s, v), b) && |b.serialOf| == s.round
  {
    assert Use(TheCounts, true);
    CountsArrive(s, v);
    assert !b.serial.Closing?;
  }

  /** A waiter arrives: only the current round's counters move. */
  lemma BarrierArrive(s: State, g: seq<Place>, b: Rounds, v: Vid)
    requires Barrier(s, g, b) && v < |s.vths| && s.vths[v].pc.Arrive? && s.curWaiters + 1 != s.waiters
    ensures Barrier(ArriveStep(s, v), g, b)
  {
    UserFacts(s, g, b, v);
    ArriveUser(s.vths[v], v, g[v].token, s.round, s.waiters, b);
    CountsWaiter(s, b, v);
    assert g == g[v := g[v]];
    BarrierMoves(s, g, b, ArriveStep(s, v), g, v);
  }

  /** If the count says everybody has arrived, then everybody has. */
  lemma AllArrived(s: State, round: nat)
    requires Sum(s.vths, ArrivedFn(round)) == Sum(s.vths, PartOf)
    ensures forall u :: 0 <= u < |s.vths| && s.vths[u].part ==> s.vths[u].arrived == round + 1
  {
    SumEqual(s.vths, ArrivedFn(round), PartOf);
    forall u | 0 <= u < |s.vths| && s.vths[u].part ensures s.vths[u].arrived == round + 1 {
      assert ArrivedFn(round)(s.vths[u]) == PartOf(s.vths[u]);
    }
  }

  /** When the last one arrives, the last of the round before has gone: it is a user of
      the barrier itself and has not arrived again. */
  lemma NoSerialAtLast(s: State, g: seq<Place>, b: Rounds, v: Vid)
    requires Barrier(s, g, b) && v < |s.vths| && s.vths[v].pc.Arrive? && s.curWaiters + 1 == s.waiters
    ensures b.serial.NoSerial? && s.vths[v].part && s.vths[v].pc.r == s.vths[v].arrived == s.round && |b.serialOf| == s.round
  {
    UserFacts(s, g, b, v);
    assert Use(TheCounts, true);
    ArriveUser(s.vths[v], v, g[v].token, s.round, s.waiters, b);
    CountsArrive(s, v);
    if b.serial.Waking? {
      var s', u := ArriveStep(s, v), b.serial.v;
      AllArrived(s', s.round);
      assert s'.vths[u] == s.vths[u];
      UserFacts(s, g, b, u);
      WakingUser(s.vths[u], u, g[u].token, s.round, s.waiters, b);
    }
  }

  lemma WakingUser(x: Vth, v: Vid, t: Token, round: nat, waiters: nat, b: Rounds)
    requires UserOk(x, v, t, round, waiters, b) && b.serial == Waking(v)
    ensures x.part && x.arrived == round
  {
  }

  lemma UsersLast(vths: seq<Vth>, g: seq<Place>, round: nat, waiters: nat, b: Rounds, v: Vid)
    requires Users(vths, g, round, waiters, b) && v < |vths| && b.serial.NoSerial? && |b.serialOf| == round
    requires vths[v].pc.Arrive? && vths[v].part
    ensures var x := vths[v].(arrived := vths[v].arrived + 1, pc := Reset(vths[v].pc.r, waiters));
            Users(vths[v := x], g, round, waiters, Rounds(b.serialOf + [v], Closing(v)))
  {
    assert Use(TheUsers, true);
    var x := vths[v].(arrived := vths[v].arrived + 1, pc := Reset(vths[v].pc.r, waiters));
    var b' := Rounds(b.serialOf + [v], Closing(v));
    forall u | 0 <= u < |vths| ensures UserOk(vths[v := x][u], u, g[u].token, round, waiters, b') {
      ExtendSerial(vths[u], u, g[u].token, round, waiters, b, v);
    }
  }

  lemma CountsLast(s: State, b: Rounds, v: Vid)
    requires CountsOk(s, b) && b.serial.NoSerial? && v < |s.vths| && s.vths[v].pc == Arrive(s.round)
    requires s.vths[v].part && s.vths[v].arrived == s.round && s.curWaiters + 1 == s.waiters
    ensures CountsOk(ArriveStep(s, v), Rounds(b.serialOf + [v], Closing(v)))
  {
    assert Use(TheCounts, true);
    CountsArrive(s, v);
    AllArrived(ArriveStep(s, v), s.round);
  }

  /** The last to arrive closes the round. */
  lemma BarrierLast(s: State, g: seq<Place>, b: Rounds, v: Vid) returns (b': Rounds)
    requires Barrier(s, g, b) && v < |s.vths| && s.vths[v].pc.Arrive? && s.curWaiters + 1 == s.waiters
    ensures b' == Rounds(b.serialOf + [v], Closing(v)) && Barrier(ArriveStep(s, v), g, b')
  {
    b' := Rounds(b.serialOf + [v], Closing(v));
    NoSerialAtLast(s, g, b, v);
    CountsLast(s, b, v);
    UsersLast(s.vths, g, s.round, s.waiters, b, v);
  }

  /** Naming the last to arrive of round `round` takes nothing from anybody's facts. */
  lemma ExtendSerial(x: Vth, u: Vid, t: Token, round: nat, waiters: nat, b: Rounds, v: Vid)
    requires UserOk(x, u, t, round, waiters, b) && b.serial.NoSerial? && |b.serialOf| == round
    requires u == v ==> x.pc.Arrive? && x.part
    ensures var b' := Rounds(b.serialOf + [v], Closing(v));
            UserOk(if u == v then x.(arrived := x.arrived + 1, pc := Reset(x.pc.r, waiters)) else x, u, t, round, waiters, b')
  {
    if x.part {
      forall k ensures x.wakes[k] == WakesIn(x, t, k) {}
      var x' := x.(arrived := x.arrived + 1, pc := Reset(round, waiters));
      if u == v { forall k ensures x'.wakes[k] == WakesIn(x', t, k) { assert x.wakes[k] == WakesIn(x, t, k); } }
    }
  }

  /** Facts of a vthread that just pushed itself. */
  lemma PushUser(x: Vth, v: Vid, t: Token, t': Token, round: nat, waiters: nat, b: Rounds)
    requires UserOk(x, v, t, round, waiters, b) && x.pc.Push? && t' == InQueue(x.pc.r % 2 == 1)
    ensures UserOk(x.(pc := Block(x.pc.r)), v, t', round, waiters, b)
    ensures x.pc.r == round || x.pc.r + 1 == round
    ensures b.serial.NoSerial? || b.serial.v != v
  {
    HistorySame(x, v, t, x.(pc := Block(x.pc.r)), t', b.serialOf);
  }

  /** A push moves one waiter from unpushed to queued, in the same round. */
  lemma BarrierPush(s: State, g: seq<Place>, b: Rounds, v: Vid, g': seq<Place>)
    requires Barrier(s, g, b) && v < |s.vths| && s.vths[v].pc.Push?
    requires |g'| == |g| && g' == g[v := g'[v]] && g'[v].token == InQueue(s.vths[v].pc.r % 2 == 1)
    ensures Barrier(PushStep(s, v), g', b)
  {
    UserFacts(s, g, b, v);
    var s' := PushStep(s, v);
    PushUser(s.vths[v], v, g[v].token, g'[v].token, s.round, s.waiters, b);
    assert s'.vths[v] == s.vths[v].(pc := Block(s.vths[v].pc.r));
    CountsPush(s, v);
    CountsKeep(s, b, s', v);
    BarrierMoves(s, g, b, s', g', v);
  }

  /** A push leaves the waiters of round n, queued on the queue of its parity or not yet. */
  lemma PushRound(s: State, v: Vid, q: nat, n: int)
    requires v < |s.vths| && s.vths[v].pc.Push? && q % 2 == n % 2
    requires n == s.vths[v].pc.r || n % 2 != s.vths[v].pc.r % 2
    ensures |Queue(PushStep(s, v), q)| + Sum(PushStep(s, v).vths, UnpushedFn(n)) == |Queue(s, q)| + Sum(s.vths, UnpushedFn(n))
  {
    SumUpdate(s.vths, v, PushStep(s, v).vths[v], UnpushedFn(n));
  }

  lemma CountsPush(s: State, v: Vid)
    requires v < |s.vths| && s.vths[v].pc.Push? && (s.vths[v].pc.r == s.round || s.vths[v].pc.r + 1 == s.round)
    ensures SameCounts(s, PushStep(s, v))
  {
    SumUpdate(s.vths, v, PushStep(s, v).vths[v], PartOf);
    SumUpdate(s.vths, v, PushStep(s, v).vths[v], ArrivedFn(s.round));
    PushRound(s, v, s.round, s.round);
    PushRound(s, v, s.round + 1, s.round - 1);
  }

  /** A waiter whose round is complete, about to return 0. */
  lemma ReturnUser(x: Vth, v: Vid, t: Token, round: nat, waiters: nat, b: Rounds)
    requires UserOk(x, v, t, round, waiters, b) && x.pc.Blocked? && t.NoToken? && |b.serialOf| >= round
    ensures UserOk(x.(pc := Body, results := x.results + [false]), v, t, round, waiters, b)
    ensures b.serial.NoSerial? || b.serial.v != v
  {
    var x' := x.(pc := Body, results := x.results + [false]);
    forall k ensures x'.wakes[k] == WakesIn(x', t, k) { assert x.wakes[k] == WakesIn(x, t, k); }
  }

  /** A waiter that was woken returns 0. */
  lemma BarrierReturn(s: State, g: seq<Place>, b: Rounds, v: Vid)
    requires Barrier(s, g, b) && v < |s.vths| && s.vths[v].pc.Blocked? && g[v].token.NoToken?
    ensures Barrier(Leave(s, v, false), g, b)
  {
    UserFacts(s, g, b, v);
    SerialFacts(s, b);
    var s' := Leave(s, v, false);
    ReturnUser(s.vths[v], v, g[v].token, s.round, s.waiters, b);
    CountsSame(s, b, s', v);
    BarrierMoves(s, g, b, s', g, v);
  }

  lemma CountsReset(s: State, b: Rounds, v: Vid)
    requires CountsOk(s, b) && v < |s.vths| && s.vths[v].pc.Reset? && b.serial == Closing(v)
    requires s.vths[v].pc.c == s.waiters
    ensures s.curWaiters == s.waiters && CountsOk(ResetStep(s, v), b)
  {
    assert Use(TheCounts, true);
    SumsSame(s.vths, v, ResetStep(s, v).vths[v], s.round);
  }

  /** The CAS that resets cur_waiters succeeds. */
  lemma BarrierReset(s: State, g: seq<Place>, b: Rounds, v: Vid)
    requires Barrier(s, g, b) && v < |s.vths| && s.vths[v].pc.Reset?
    ensures s.curWaiters == s.vths[v].pc.c
    ensures Barrier(ResetStep(s, v), g, b)
  {
    UserFacts(s, g, b, v);
    var x, t, s' := s.vths[v], g[v].token, ResetStep(s, v);
    CountsReset(s, b, v);
    HistorySame(x, v, t, s'.vths[v], t, b.serialOf);
    BarrierMoves(s, g, b, s', g, v);
  }

  /** Advancing the round: the waiters of the closed round are those of the round before. */
  lemma SumsAdvance(s: State, v: Vid, s': State)
    requires v < |s.vths| && s.vths[v].pc.Advance? && s.vths[v].part && s' == AdvanceStep(s, v)
    requires forall u :: 0 <= u < |s.vths| ==> UnpushedIn(s.vths[u], s.round + 1) == 0
    requires forall u :: 0 <= u < |s.vths| && s.vths[u].part ==> s.vths[u].arrived == s.round + 1
    ensures Sum(s'.vths, PartOf) == Sum(s.vths, PartOf) && Sum(s'.vths, ArrivedFn(s'.round)) == 0
    ensures s'.round == s.round + 1 && Before(s') == Now(s) && (Before(s) == 0 ==> Now(s') == 0)
  {
    SumsUpdate(s, v, s'.vths[v], s.round);
    forall u | 0 <= u < |s.vths| ensures ArrivedIn(s'.vths[u], s'.round) == 0 && UnpushedIn(s'.vths[u], s'.round) == 0 {}
    SumZero(s'.vths, ArrivedFn(s'.round));
    SumZero(s'.vths, UnpushedFn(s'.round));
  }

  lemma CountsAdvance(s: State, b: Rounds, v: Vid, b': Rounds)
    requires CountsOk(s, b) && v < |s.vths| && s.vths[v].pc == Advance(s.round, s.waiters) && b.serial == Closing(v)
    requires s.vths[v].part && s.waiters > 0
    requires b' == Rounds(b.serialOf, if s.waiters > 1 then Waking(v) else NoSerial)
    requires forall u :: 0 <= u < |s.vths| ==> UnpushedIn(s.vths[u], s.round + 1) == 0
    ensures CountsOk(AdvanceStep(s, v), b')
  {
    assert Use(TheCounts, true);
    SumsAdvance(s, v, AdvanceStep(s, v));
  }

  /** In a closed round everybody else is a waiter of that round. */
  lemma ClosedUser(x: Vth, u: Vid, t: Token, round: nat, waiters: nat, b: Rounds, b': Rounds)
    requires UserOk(x, u, t, round, waiters, b) && b.serial.Closing? && b.serial.v != u
    requires x.part ==> x.arrived == round + 1
    requires b' == b.(serial := b'.serial) && (b'.serial.NoSerial? || b'.serial == Waking(b.serial.v))
    ensures UserOk(x, u, t, round + 1, waiters, b') && UnpushedIn(x, round + 1) == 0
  {
    if x.part { HistorySame(x, u, t, x, t, b.serialOf); }
  }

  /** The one that advanced the round itself. */
  lemma AdvanceUser(x: Vth, v: Vid, t: Token, round: nat, waiters: nat, b: Rounds, b': Rounds)
    requires UserOk(x, v, t, round, waiters, b) && x.pc.Advance? && waiters > 0 && x.part
    requires |b.serialOf| == round + 1 && b.serialOf[round] == v
    requires b' == Rounds(b.serialOf, if waiters > 1 then Waking(v) else NoSerial)
    ensures var x' := if waiters > 1 then x.(pc := Pop(round, waiters - 1)) else x.(pc := Body, results := x.results + [true]);
            UserOk(x', v, t, round + 1, waiters, b')
  {
    var x' := if waiters > 1 then x.(pc := Pop(round, waiters - 1)) else x.(pc := Body, results := x.results + [true]);
    forall k ensures x'.wakes[k] == WakesIn(x', t, k) { assert x.wakes[k] == WakesIn(x, t, k); }
  }

  lemma UsersAdvance(vths: seq<Vth>, g: seq<Place>, round: nat, waiters: nat, b: Rounds, v: Vid, x: Vth, b': Rounds)
    requires Users(vths, g, round, waiters, b) && v < |vths| && b.serial == Closing(v)
    requires forall u :: 0 <= u < |vths| && vths[u].part ==> vths[u].arrived == round + 1
    requires b' == Rounds(b.serialOf, if waiters > 1 then Waking(v) else NoSerial)
    requires UserOk(x, v, g[v].token, round + 1, waiters, b')
    ensures Users(vths[v := x], g, round + 1, waiters, b')
    ensures forall u :: 0 <= u < |vths| && u != v ==> UnpushedIn(vths[u], round + 1) == 0
  {
    assert Use(TheUsers, true);
    forall u | 0 <= u < |vths| && u != v
      ensures UserOk(vths[u], u, g[u].token, round + 1, waiters, b') && UnpushedIn(vths[u], round + 1) == 0
    {
      ClosedUser(vths[u], u, g[u].token, round, waiters, b, b');
    }
  }

  lemma ClosingUser(x: Vth, v: Vid, t: Token, round: nat, waiters: nat, b: Rounds)
    requires UserOk(x, v, t, round, waiters, b) && x.pc.Advance?
    ensures x.part && x.pc == Advance(round, waiters) && b.serial == Closing(v)
  {
  }

  /** The users' part, and what the counters need. */
  lemma AdvanceUsers(s: State, g: seq<Place>, b: Rounds, v: Vid, b': Rounds)
    requires Barrier(s, g, b) && v < |s.vths| && s.vths[v].pc == Advance(s.round, s.waiters) && s.vths[v].part
    requires b.serial == Closing(v) && s.waiters > 0 && b' == Rounds(b.serialOf, if s.waiters > 1 then Waking(v) else NoSerial)
    ensures Users(AdvanceStep(s, v).vths, g, s.round + 1, s.waiters, b')
    ensures forall u :: 0 <= u < |s.vths| && u != v ==> UnpushedIn(s.vths[u], s.round + 1) == 0
  {
    UserFacts(s, g, b, v);
    SerialFacts(s, b);
    AdvanceUser(s.vths[v], v, g[v].token, s.round, s.waiters, b, b');
    AdvanceShape(s, v);
    UsersAdvance(s.vths, g, s.round, s.waiters, b, v, AdvanceStep(s, v).vths[v], b');
  }

  lemma BarrierAdvance(s: State, g: seq<Place>, b: Rounds, v: Vid) returns (b': Rounds)
    requires Barrier(s, g, b) && v < |s.vths| && s.vths[v].pc.Advance?
    ensures b'.serialOf == b.serialOf && Barrier(AdvanceStep(s, v), g, b')
  {
    UserFacts(s, g, b, v);
    ClosingUser(s.vths[v], v, g[v].token, s.round, s.waiters, b);
    SomebodyWaits(s, b, v);
    b' := Rounds(b.serialOf, if s.waiters > 1 then Waking(v) else NoSerial);
    AdvanceUsers(s, g, b, v, b');
    assert UnpushedIn(s.vths[v], s.round + 1) == 0;
    CountsAdvance(s, b, v, b');
    AdvanceShape(s, v);
  }

  lemma AdvanceShape(s: State, v: Vid)
    requires v < |s.vths| && s.vths[v].pc == Advance(s.round, s.waiters) && s.waiters > 0
    ensures var x, s' := s.vths[v], AdvanceStep(s, v);
            && s'.vths == s.vths[v := if s.waiters > 1 then x.(pc := Pop(s.round, s.waiters - 1))
                                      else x.(pc := Body, results := x.results + [true])]
            && s'.round == s.round + 1 && s'.waiters == s.waiters && s'.curWaiters == s.curWaiters
  {
  }

  lemma SumsPop(s: State, v: Vid)
    requires v < |s.vths| && s.vths[v].pc.Pop? && s.vths[v].pc.r + 1 == s.round && |Queue(s, s.vths[v].pc.r)| > 0
    ensures var s' := PopStep(s, v);
            && Sum(s'.vths, PartOf) == Sum(s.vths, PartOf)
            && Sum(s'.vths, ArrivedFn(s.round)) == Sum(s.vths, ArrivedFn(s.round))
            && Now(s') == Now(s) && Before(s') == Before(s) - 1
  {
    SumsSame(s.vths, v, PopStep(s, v).vths[v], s.round);
  }

  /** A pop takes one waiter of the round before off its queue. */
  lemma CountsPop(s: State, b: Rounds, v: Vid)
    requires CountsOk(s, b) && v < |s.vths| && s.vths[v].pc.Pop? && b.serial == Waking(v)
    requires s.vths[v].pc.r + 1 == s.round && |Queue(s, s.vths[v].pc.r)| > 0
    ensures CountsOk(PopStep(s, v), b)
  {
    SumsPop(s, v);
  }

  /** The popped vthread is a waiter of the round just completed, though waiters of the
      current round may be pushing themselves at the same time. */
  lemma PopUser(x: Vth, u: Vid, t: Token, t': Token, round: nat, waiters: nat, b: Rounds, r: nat)
    requires UserOk(x, u, t, round, waiters, b) && (x.pc.Block? || x.pc.Blocked?)
    requires t == InQueue(r % 2 == 1) && r + 1 == round && t'.InWake?
    ensures UserOk(x, u, t', round, waiters, b) && x.pc.r == r
  {
    HistorySame(x, u, t, x, t', b.serialOf);
  }

  /** The one that popped it. */
  lemma PopperUser(x: Vth, v: Vid, t: Token, round: nat, waiters: nat, b: Rounds, u: Vid)
    requires UserOk(x, v, t, round, waiters, b) && x.pc.Pop?
    ensures UserOk(x.(pc := Wake(x.pc.r, x.pc.left, u)), v, t, round, waiters, b)
    ensures b.serial == Waking(v) && x.pc.r + 1 == round
  {
    HistorySame(x, v, t, x.(pc := Wake(x.pc.r, x.pc.left, u)), t, b.serialOf);
  }

  lemma UsersPop(vths: seq<Vth>, g: seq<Place>, round: nat, waiters: nat, b: Rounds, v: Vid, u: Vid)
    requires Users(vths, g, round, waiters, b) && v < |vths| && u < |vths| && vths[v].pc.Pop?
    requires (vths[u].pc.Block? || vths[u].pc.Blocked?) && g[u].token == InQueue(vths[v].pc.r % 2 == 1)
    ensures var x := vths[v].(pc := Wake(vths[v].pc.r, vths[v].pc.left, u));
            Users(vths[v := x], g[u := g[u].(token := InWake(v))], round, waiters, b)
    ensures b.serial == Waking(v) && vths[v].pc.r + 1 == round
  {
    assert Use(TheUsers, true);
    PopperUser(vths[v], v, g[v].token, round, waiters, b, u);
    PopUser(vths[u], u, g[u].token, InWake(v), round, waiters, b, vths[v].pc.r);
  }

  lemma BarrierPop(s: State, g: seq<Place>, b: Rounds, v: Vid, g': seq<Place>)
    requires Barrier(s, g, b) && v < |s.vths| && s.vths[v].pc.Pop? && |Queue(s, s.vths[v].pc.r)| > 0
    requires var u := Queue(s, s.vths[v].pc.r)[0];
             && u < |s.vths| && (s.vths[u].pc.Block? || s.vths[u].pc.Blocked?)
             && g[u].token == InQueue(s.vths[v].pc.r % 2 == 1) && g' == g[u := g[u].(token := InWake(v))]
    ensures Barrier(PopStep(s, v), g', b)
  {
    var s', u := PopStep(s, v), Queue(s, s.vths[v].pc.r)[0];
    UsersPop(s.vths, g, s.round, s.waiters, b, v, u);
    CountsPop(s, b, v);
    assert s'.vths == s.vths[v := s'.vths[v]] && s'.round == s.round && s'.waiters == s.waiters;
  }

  // Waking a waiter

  /** The woken vthread: now on the run queue, with one more wake-up recorded. */
  lemma WokenUser(x: Vth, u: Vid, t: Token, round: nat, waiters: nat, b: Rounds, r: nat)
    requires UserOk(x, u, t, round, waiters, b) && (x.pc.Block? || x.pc.Blocked?) && t.InWake? && r + 1 == round
    ensures UserOk(x.(wakes := x.wakes + multiset{r}), u, InRun, round, waiters, b)
    ensures b.serial.NoSerial? || b.serial.v != u
  {
    var x' := x.(wakes := x.wakes + multiset{r});
    forall k ensures x'.wakes[k] == WakesIn(x', InRun, k) { assert x.wakes[k] == WakesIn(x, t, k); }
  }

  ghost function RoundsAfterWake(b: Rounds, v: Vid, left: nat): Rounds
  {
    Rounds(b.serialOf, if left > 1 then Waking(v) else NoSerial)
  }

  /** The waker: to its next pop, or out of the barrier with the serial result. */
  lemma WakerUser(x: Vth, v: Vid, t: Token, round: nat, waiters: nat, b: Rounds)
    requires UserOk(x, v, t, round, waiters, b) && x.pc.Wake? && |b.serialOf| == round > 0 && b.serialOf[round - 1] == v
    ensures UserOk(WakerAfter(x), v, t, round, waiters, RoundsAfterWake(b, v, x.pc.left))
    ensures b.serial == Waking(v) && x.pc.r + 1 == round && x.pc.left > 0
  {
    var x', b' := WakerAfter(x), RoundsAfterWake(b, v, x.pc.left);
    if x.pc.left > 1 {
      HistorySame(x, v, t, x', t, b.serialOf);
    } else {
      forall k ensures x'.wakes[k] == WakesIn(x', t, k) { assert x.wakes[k] == WakesIn(x, t, k); }
      assert HistoryOk(x', v, t, b.serialOf);
    }
  }

  /** Everybody else does not notice that the waker has left. */
  lemma OtherUser(x: Vth, u: Vid, t: Token, round: nat, waiters: nat, b: Rounds, b': Rounds, v: Vid)
    requires UserOk(x, u, t, round, waiters, b) && u != v && b.serial == Waking(v)
    requires b' == b || b' == b.(serial := NoSerial)
    ensures UserOk(x, u, t, round, waiters, b')
  {
    if x.part { HistorySame(x, u, t, x, t, b.serialOf); }
  }

  lemma SumsWake(s: State, v: Vid)
    requires v < |s.vths| && s.vths[v].pc.Wake? && s.vths[v].pc.v < |s.vths| && s.vths[v].pc.v != v
    ensures SameCounts(s, WakeStep(s, v))
  {
    WakeShape(s, v);
    SumsTwo(s.vths, s.vths[v].pc.v, v, s.round);
  }

  /** Waking changes no count: neither the woken vthread's record of wake-ups nor the waker's
      program point is counted. */
  lemma SumsTwo(vths: seq<Vth>, u: Vid, v: Vid, round: nat)
    requires u < |vths| && v < |vths| && u != v && vths[v].pc.Wake?
    ensures var after := vths[u := vths[u].(wakes := vths[u].wakes + multiset{vths[v].pc.r})][v := WakerAfter(vths[v])];
            && Sum(after, PartOf) == Sum(vths, PartOf)
            && Sum(after, ArrivedFn(round)) == Sum(vths, ArrivedFn(round))
            && Sum(after, UnpushedFn(round)) == Sum(vths, UnpushedFn(round))
            && Sum(after, UnpushedFn(round - 1)) == Sum(vths, UnpushedFn(round - 1))
  {
    var y := vths[u].(wakes := vths[u].wakes + multiset{vths[v].pc.r});
    SumsSame(vths, u, y, round);
    SumsSame(vths[u := y], v, WakerAfter(vths[v]), round);
  }

  lemma CountsWake(s: State, b: Rounds, v: Vid)
    requires CountsOk(s, b) && v < |s.vths| && s.vths[v].pc.Wake? && b.serial == Waking(v) && s.vths[v].pc.left > 0
    requires s.vths[v].pc.v < |s.vths| && s.vths[v].pc.v != v
    ensures CountsOk(WakeStep(s, v), RoundsAfterWake(b, v, s.vths[v].pc.left))
  {
    SumsWake(s, v);
    WakeShape(s, v);
  }

  lemma UsersWake(vths: seq<Vth>, g: seq<Place>, round: nat, waiters: nat, b: Rounds, v: Vid, u: Vid)
    requires Users(vths, g, round, waiters, b) && v < |vths| && u < |vths| && u != v && vths[v].pc.Wake?
    requires |b.serialOf| == round > 0 && b.serialOf[round - 1] == v
    requires (vths[u].pc.Block? || vths[u].pc.Blocked?) && g[u].token.InWake?
    ensures var y := vths[u].(wakes := vths[u].wakes + multiset{vths[v].pc.r});
            Users(vths[u := y][v := WakerAfter(vths[v])], g[u := g[u].(token := InRun)], round, waiters,
                  RoundsAfterWake(b, v, vths[v].pc.left))
    ensures b.serial == Waking(v) && vths[v].pc.left > 0
  {
    assert Use(TheUsers, true);
    var y := vths[u].(wakes := vths[u].wakes + multiset{vths[v].pc.r});
    var b' := RoundsAfterWake(b, v, vths[v].pc.left);
    WakerUser(vths[v], v, g[v].token, round, waiters, b);
    WokenUser(vths[u], u, g[u].token, round, waiters, b, vths[v].pc.r);
    OtherUser(y, u, InRun, round, waiters, b, b', v);
    forall z | 0 <= z < |vths| && z != u && z != v ensures UserOk(vths[z], z, g[z].token, round, waiters, b') {
      OtherUser(vths[z], z, g[z].token, round, waiters, b, b', v);
    }
  }

  lemma BarrierWake(s: State, g: seq<Place>, b: Rounds, v: Vid, g': seq<Place>) returns (b': Rounds)
    requires Barrier(s, g, b) && v < |s.vths| && s.vths[v].pc.Wake? && s.vths[v].pc.v < |s.vths| && s.vths[v].pc.v != v
    requires var u := s.vths[v].pc.v;
             && (s.vths[u].pc.Block? || s.vths[u].pc.Blocked?)
             && g[u].token.InWake? && g' == g[u := g[u].(token := InRun)]
    ensures b'.serialOf == b.serialOf && Barrier(WakeStep(s, v), g', b')
  {
    UserFacts(s, g, b, v);
    b' := RoundsAfterWake(b, v, s.vths[v].pc.left);
    SerialFacts(s, b);
    UsersWake(s.vths, g, s.round, s.waiters, b, v, s.vths[v].pc.v);
    CountsWake(s, b, v);
    WakeShape(s, v);
  }

  // ---------------------------------------------------------------------------
  // Every run

  ghost predicate InvWith(s: State, g: seq<Place>, b: Rounds) { HandOff(s, g) && Barrier(s, g, b) }

  ghost predicate Inv(s: State) { exists g, b :: InvWith(s, g, b) }

  lemma LoadRoundUser(s: State, g: seq<Place>, b: Rounds, v: Vid)
    requires Barrier(s, g, b) && v < |s.vths| && s.vths[v].pc.LoadRound?
    ensures s.vths[v].part
  {
    UserFacts(s, g, b, v);
  }

  /** A step outside the barrier leads to the barrier, to the end, or back to the worker. */
  lemma BodyShape(s: State, w: nat, v: Vid, c: Choice)
    requires w < |s.workers| && s.workers[w] == Running(v) && v < |s.vths|
    requires var pc := s.vths[v].pc; pc.Body? || pc.LoadRound? || pc.Finished?
    ensures var s', x := Step(s, w, c), s.vths[v];
            if x.pc.LoadRound? then s' == At(s, v, Arrive(s.round))
            else if x.pc.Body? && c.Finish? then s' == At(s, v, Finished).(workers := s'.workers)
            else if x.pc.Body? && c.Wait? && x.part then s' == At(s, v, LoadRound)
            else s' == s.(workers := s'.workers)
  {
  }

  /** Who runs what is nothing to the barrier. */
  lemma BarrierWorkers(s: State, g: seq<Place>, b: Rounds, workers: seq<WPC>)
    requires Barrier(s, g, b)
    ensures Barrier(s.(workers := workers), g, b)
  {
    CountsWorkers(s, b, workers);
  }

  lemma CountsWorkers(s: State, b: Rounds, workers: seq<WPC>)
    requires CountsOk(s, b)
    ensures CountsOk(s.(workers := workers), b)
  {
    var s' := s.(workers := workers);
    assert Now(s') == Now(s) && Before(s') == Before(s);
  }

  /** Steps of a running vthread outside the barrier. */
  lemma BodyKeeps(s: State, g: seq<Place>, b: Rounds, w: nat, c: Choice)
    requires InvWith(s, g, b) && w < |s.workers| && s.workers[w].Running? && s.workers[w].v < |s.vths|
    requires var pc := s.vths[s.workers[w].v].pc; pc.Body? || pc.LoadRound? || pc.Finished?
    ensures Barrier(Step(s, w, c), g, b)
  {
    var v, s' := s.workers[w].v, Step(s, w, c);
    BodyShape(s, w, v, c);
    var pc := s.vths[v].pc;
    if pc.LoadRound? {
      LoadRoundUser(s, g, b, v);
      BarrierBody(s, g, b, v, Arrive(s.round));
    } else if pc.Body? && c.Finish? {
      BarrierBody(s, g, b, v, Finished);
      BarrierWorkers(At(s, v, Finished), g, b, s'.workers);
    } else if pc.Body? && c.Wait? && s.vths[v].part {
      BarrierBody(s, g, b, v, LoadRound);
    } else {
      BarrierWorkers(s, g, b, s'.workers);
    }
  }

  /** Steps of a running vthread in the barrier that leave the places alone. */
  lemma BarrierKeeps(s: State, g: seq<Place>, b: Rounds, w: nat, c: Choice) returns (b': Rounds)
    requires InvWith(s, g, b) && w < |s.workers| && s.workers[w].Running? && s.workers[w].v < |s.vths|
    requires var pc := s.vths[s.workers[w].v].pc;
             && Stays(s, pc) && !pc.Body? && !pc.LoadRound? && !pc.Finished?
    ensures Barrier(Step(s, w, c), g, b')
  {
    assert Use(TheHandOff, true);
    var v, s' := s.workers[w].v, Step(s, w, c);
    var x := s.vths[v];
    assert WorkerOk(s, g, w) && VthOk(x, v, g[v], s.workers);
    b' := b;
    if x.pc.Block? || x.pc.Pop? { b' := b; BarrierSwitch(s, g, b, w, c); return; }
    match x.pc
    case Arrive(_) => if s.curWaiters + 1 != s.waiters { BarrierArrive(s, g, b, v); } else { b' := BarrierLast(s, g, b, v); }
    case SetBlocked(_) => BarrierSetBlocked(s, g, b, v);
    case Blocked(_) => BarrierReturn(s, g, b, v);
    case Reset(_, _) => BarrierReset(s, g, b, v);
    case Advance(_, _) => b' := BarrierAdvance(s, g, b, v);
  }

  /** Switching out: to wait, or because there is nobody to wake yet. */
  lemma BarrierSwitch(s: State, g: seq<Place>, b: Rounds, w: nat, c: Choice)
    requires Barrier(s, g, b) && w < |s.workers| && s.workers[w].Running? && s.workers[w].v < |s.vths|
    requires var pc := s.vths[s.workers[w].v].pc; pc.Block? || (pc.Pop? && |Queue(s, pc.r)| == 0)
    ensures Barrier(Step(s, w, c), g, b)
  {
    var v, s' := s.workers[w].v, Step(s, w, c);
    if s.vths[v].pc.Block? {
      BarrierBlock(s, g, b, v);
      BarrierWorkers(At(s, v, Blocked(s.vths[v].pc.r)), g, b, s'.workers);
    } else {
      BarrierWorkers(s, g, b, s'.workers);
    }
  }

  /** Steps of a running vthread that move a vthread on or off a blocked queue. */
  lemma TransferKeepsInv(s: State, g: seq<Place>, b: Rounds, w: nat, c: Choice) returns (g': seq<Place>, b': Rounds)
    requires InvWith(s, g, b) && w < |s.workers| && s.workers[w].Running? && s.workers[w].v < |s.vths|
    requires !Stays(s, s.vths[s.workers[w].v].pc)
    ensures InvWith(Step(s, w, c), g', b')
  {
    var v := s.workers[w].v;
    var pc := s.vths[v].pc;
    b' := b;
    if pc.Push? {
      assert Step(s, w, c) == PushStep(s, v);
      g' := KeepPush(s, g, w, v);
      BarrierPush(s, g, b, v, g');
    } else if pc.Wake? {
      WakeFacts(s, g, v);
      assert Step(s, w, c) == WakeStep(s, v);
      g' := KeepWake(s, g, w, v);
      b' := BarrierWake(s, g, b, v, g');
    } else {
      QueueMember(s, g, pc.r, 0);
      assert Step(s, w, c) == PopStep(s, v);
      g' := KeepPop(s, g, w, v);
      BarrierPop(s, g, b, v, g');
    }
  }

  lemma RunningKeeps(s: State, g: seq<Place>, b: Rounds, w: nat, c: Choice) returns (g': seq<Place>, b': Rounds)
    requires InvWith(s, g, b) && w < |s.workers| && s.workers[w].Running?
    ensures InvWith(Step(s, w, c), g', b')
  {
    assert Use(TheHandOff, true);
    assert WorkerOk(s, g, w);
    var pc := s.vths[s.workers[w].v].pc;
    if !Stays(s, pc) {
      g', b' := TransferKeepsInv(s, g, b, w, c);
    } else {
      g', b' := g, b;
      KeepRunning(s, g, w, c);
      if pc.Body? || pc.LoadRound? || pc.Finished? { BodyKeeps(s, g, b, w, c); }
      else { b' := BarrierKeeps(s, g, b, w, c); }
    }
  }

  lemma WakeFacts(s: State, g: seq<Place>, v: Vid)
    requires HandOff(s, g) && v < |s.vths| && s.vths[v].pc.Wake?
    ensures var u := s.vths[v].pc.v;
            u < |s.vths| && u != v && (s.vths[u].pc.Block? || s.vths[u].pc.Blocked?) && g[u].token.InWake?
  {
    assert Use(TheHandOff, true);
    assert VthOk(s.vths[s.vths[v].pc.v], s.vths[v].pc.v, g[s.vths[v].pc.v], s.workers);
  }

  /** What a worker that runs nothing changes of what the barrier sees. */
  lemma WorkerShape(s: State, w: nat, c: Choice, v: Vid)
    requires w < |s.workers| && !s.workers[w].Running? && v < |s.vths|
    requires if s.workers[w].Free? then c.Take? ==> c.v == v else s.workers[w].v == v
    ensures var s' := Step(s, w, c);
            && s'.waiters == s.waiters && s'.curWaiters == s.curWaiters && s'.round == s.round
            && s'.even == s.even && s'.odd == s.odd && |s'.vths| == |s.vths|
            && s'.vths == s.vths[v := s'.vths[v]] && s'.vths[v] == s.vths[v].(runnable := s'.vths[v].runnable)
  {
  }

  lemma WorkerKeeps(s: State, g: seq<Place>, b: Rounds, w: nat, c: Choice) returns (g': seq<Place>)
    requires InvWith(s, g, b) && w < |s.workers| && !s.workers[w].Running? && !s.workers[w].Free?
    ensures InvWith(Step(s, w, c), g', b)
  {
    var x := s.workers[w];
    if x.Got? { g' := KeepGot(s, g, w, c); }
    else if x.Requeue? { g' := KeepRequeue(s, g, w, c); }
    else { g' := KeepReturned(s, g, w, c); }
    WorkerShape(s, w, c, x.v);
    BarrierSame(s, g, b, Step(s, w, c), g', x.v);
  }

  lemma StepKeeps(s: State, g: seq<Place>, b: Rounds, w: nat, c: Choice) returns (g': seq<Place>, b': Rounds)
    requires InvWith(s, g, b)
    ensures InvWith(Step(s, w, c), g', b')
  {
    if w >= |s.workers| || (s.workers[w].Free? && !(c.Take? && c.v in s.run)) {
      assert Step(s, w, c) == s;
      g', b' := g, b;
    } else if s.workers[w].Running? {
      g', b' := RunningKeeps(s, g, b, w, c);
    } else if s.workers[w].Free? {
      b' := b;
      g' := KeepFree(s, g, w, c.v);
      WorkerShape(s, w, c, c.v);
      BarrierSame(s, g, b, Step(s, w, c), g', c.v);
    } else {
      b' := b;
      g' := WorkerKeeps(s, g, b, w, c);
    }
  }

  /** Every vthread is runnable and on the run queue, and exactly `waiters` of them use the
      barrier that pthread_barrier_init has just set up. */
  ghost predicate Init(s: State)
  {
    && s.curWaiters == 0 && s.round == 0 && s.even == [] && s.odd == []
    && Sum(s.vths, PartOf) == s.waiters
    && (forall v :: 0 <= v < |s.vths| ==> s.vths[v] == Vth(Body, true, s.vths[v].part, 0, [], multiset{}))
    && (forall v :: 0 <= v < |s.vths| ==> s.run[v] == 1)
    && (forall v :: v >= |s.vths| ==> s.run[v] == 0)
    && (forall w :: 0 <= w < |s.workers| ==> s.workers[w] == Free)
  }

  ghost function Run(s: State, schedule: seq<(nat, Choice)>): State
    decreases |schedule|
  {
    if |schedule| == 0 then s
    else
      var s1 := Run(s, schedule[..|schedule| - 1]);
      Step(s1, schedule[|schedule| - 1].0, schedule[|schedule| - 1].1)
  }

  ghost predicate Reachable(s: State)
  {
    exists s0, schedule :: Init(s0) && s == Run(s0, schedule)
  }

  lemma InitInvariant(s: State)
    requires Init(s)
    ensures InvWith(s, seq(|s.vths|, _ => Place(InRun, NoRunner)), Rounds([], NoSerial))
  {
    InitHandOff(s);
    InitBarrier(s);
  }

  lemma InitHandOff(s: State)
    requires Init(s)
    ensures HandOff(s, seq(|s.vths|, _ => Place(InRun, NoRunner)))
  {
  }

  lemma InitBarrier(s: State)
    requires Init(s)
    ensures Barrier(s, seq(|s.vths|, _ => Place(InRun, NoRunner)), Rounds([], NoSerial))
  {
    InitCounts(s);
  }

  lemma InitCounts(s: State)
    requires Init(s)
    ensures CountsOk(s, Rounds([], NoSerial))
  {
    SumZero(s.vths, ArrivedFn(0));
    SumZero(s.vths, UnpushedFn(0));
    SumZero(s.vths, UnpushedFn(-1));
    assert Now(s) == 0 && Before(s) == 0;
  }

  lemma {:induction false} RunInvariant(s: State, schedule: seq<(nat, Choice)>)
    requires Init(s)
    ensures Inv(Run(s, schedule))
    decreases |schedule|
  {
    if |schedule| == 0 {
      InitInvariant(s);
    } else {
      var n := |schedule| - 1;
      RunInvariant(s, schedule[..n]);
      var g, b :| InvWith(Run(s, schedule[..n]), g, b);
      var g', b' := StepKeeps(Run(s, schedule[..n]), g, b, schedule[n].0, schedule[n].1);
    }
  }

  lemma ReachableInvariant(s: State) returns (g: seq<Place>, b: Rounds)
    requires Reachable(s)
    ensures InvWith(s, g, b)
  {
    var s0, schedule :| Init(s0) && s == Run(s0, schedule);
    RunInvariant(s0, schedule);
    g, b :| InvWith(s, g, b);
  }

  // ---------------------------------------------------------------------------
  // The worker hand-off

  function HasInHand(x: WPC, v: Vid): nat { if (x.Got? || x.Requeue?) && x.v == v then 1 else 0 }
  function HasInHandFn(v: Vid): WPC -> nat { (x: WPC) => HasInHand(x, v) }
  function IsWakingOne(x: Vth, v: Vid): nat { if x.pc.Wake? && x.pc.v == v then 1 else 0 }
  function IsWakingOneFn(v: Vid): Vth -> nat { (x: Vth) => IsWakingOne(x, v) }

  /** How often `v` is on the run queue and the blocked queues, or in the hands of someone
      who took it from one and will put it on another or run it. */
  ghost function Places(s: State, v: Vid): nat
  {
    s.run[v] + multiset(s.even)[v] + multiset(s.odd)[v]
    + Sum(s.workers, HasInHandFn(v)) + Sum(s.vths, IsWakingOneFn(v))
  }

  /** A sum to which only member `i` contributes. */
  lemma {:induction false} SumOnly<T>(s: seq<T>, f: T -> nat, i: nat)
    requires i < |s| && forall j :: 0 <= j < |s| && j != i ==> f(s[j]) == 0
    ensures Sum(s, f) == f(s[i])
  {
    if i == 0 { SumZero(s[1..], f); }
    else {
      assert forall j :: 0 <= j < |s[1..]| ==> s[1..][j] == s[j + 1];
      SumOnly(s[1..], f, i - 1);
    }
  }

  lemma {:induction false} QueueCount(q: seq<Vid>, v: Vid)
    requires NoRepeats(q)
    ensures multiset(q)[v] == if v in q then 1 else 0
  {
    if |q| > 0 {
      assert q == [q[0]] + q[1..];
      QueueCount(q[1..], v);
    }
  }

  lemma PlacesAre(s: State, g: seq<Place>, v: Vid)
    requires HandOff(s, g) && v < |g|
    ensures Places(s, v) == if g[v].token.NoToken? then 0 else 1
  {
    assert Use(TheHandOff, true);
    var t := g[v].token;
    QueueCount(s.even, v);
    QueueCount(s.odd, v);
    HandsAre(s, g, v);
    assert TokenOk(s, g, v);
    if t.InWake? { SumOnly(s.vths, IsWakingOneFn(v), t.u); } else { SumZero(s.vths, IsWakingOneFn(v)); }
  }

  lemma HandsAre(s: State, g: seq<Place>, v: Vid)
    requires HandOff(s, g) && v < |g|
    ensures Sum(s.workers, HasInHandFn(v)) == if g[v].token.InHand? then 1 else 0
  {
    assert Use(TheHandOff, true);
    var t := g[v].token;
    assert TokenOk(s, g, v);
    forall w | 0 <= w < |s.workers| && HasInHand(s.workers[w], v) != 0 ensures t == InHand(w) {
      assert WorkerOk(s, g, w);
    }
    if t.InHand? { SumOnly(s.workers, HasInHandFn(v), t.w); } else { SumZero(s.workers, HasInHandFn(v)); }
  }

  lemma OneRunner(s: State, g: seq<Place>, v: Vid, w: nat, x: nat)
    requires HandOff(s, g) && w < |s.workers| && x < |s.workers| && Runs(s.workers[w], v) && Runs(s.workers[x], v)
    ensures w == x
  {
    assert Use(TheHandOff, true);
    assert WorkerOk(s, g, w) && WorkerOk(s, g, x);
  }

  /** Worker hand-off: no vthread is being run by two workers, and it has at most one place
      in the run and blocked queues combined, even while its worker has not switched away. */
  lemma OneWorkerOnePlace(s: State, v: Vid)
    requires Reachable(s) && v < |s.vths|
    ensures Places(s, v) <= 1
    ensures forall w, x :: 0 <= w < |s.workers| && 0 <= x < |s.workers| && Runs(s.workers[w], v) && Runs(s.workers[x], v) ==> w == x
  {
    var g, b := ReachableInvariant(s);
    PlacesAre(s, g, v);
    forall w, x | 0 <= w < |s.workers| && 0 <= x < |s.workers| && Runs(s.workers[w], v) && Runs(s.workers[x], v)
      ensures w == x
    {
      OneRunner(s, g, v, w, x);
    }
  }

  ghost predicate IsRun(s: State, v: Vid) { exists w :: 0 <= w < |s.workers| && Runs(s.workers[w], v) }

  lemma RunnerIs(s: State, g: seq<Place>, v: Vid)
    requires HandOff(s, g) && v < |g|
    ensures IsRun(s, v) <==> g[v].runner.By?
  {
    assert Use(TheHandOff, true);
    assert VthOk(s.vths[v], v, g[v], s.workers);
    assert forall w :: 0 <= w < |s.workers| && Runs(s.workers[w], v) ==> WorkerOk(s, g, w);
  }

  lemma PlaceAndRunner(x: Vth, v: Vid, p: Place, workers: seq<WPC>)
    requires VthOk(x, v, p, workers)
    ensures !x.pc.Finished? ==> !p.token.NoToken? || p.runner.By?
    ensures !p.token.NoToken? && p.runner.By? ==> !x.runnable && (x.pc.Block? || x.pc.Blocked?)
    ensures x.pc.Finished? ==> p.token.NoToken?
  {
  }

  /** A vthread that has not finished is never lost: it has its place or a worker is running
      it, and has both only between pushing itself on a blocked queue and the moment its
      worker has taken note of the switch. A finished one has no place. */
  lemma NeverLost(s: State, v: Vid)
    requires Reachable(s) && v < |s.vths|
    ensures !s.vths[v].pc.Finished? ==> Places(s, v) == 1 || IsRun(s, v)
    ensures Places(s, v) == 1 && IsRun(s, v) ==> !s.vths[v].runnable && (s.vths[v].pc.Block? || s.vths[v].pc.Blocked?)
    ensures s.vths[v].pc.Finished? ==> Places(s, v) == 0
  {
    var g, b := ReachableInvariant(s);
    PlacesAre(s, g, v);
    RunnerIs(s, g, v);
    VthFacts(s, g, v);
    PlaceAndRunner(s.vths[v], v, g[v], s.workers);
  }

  // ---------------------------------------------------------------------------
  // The barrier

  /** Nobody has left round k before everybody has arrived in it. */
  lemma NobodyLeavesEarly(s: State, u: Vid, v: Vid)
    requires Reachable(s) && u < |s.vths| && v < |s.vths| && s.vths[u].part && s.vths[v].part
    ensures |s.vths[u].results| <= s.vths[v].arrived
  {
    var g, b := ReachableInvariant(s);
    UserFacts(s, g, b, u);
    UserFacts(s, g, b, v);
  }

  /** Exactly one user of the barrier gets PTHREAD_BARRIER_SERIAL_THREAD in each round
      that some user has left. */
  lemma OneSerialPerRound(s: State, u: Vid, k: nat) returns (serial: Vid)
    requires Reachable(s) && u < |s.vths| && s.vths[u].part && k < |s.vths[u].results|
    ensures serial < |s.vths| && s.vths[serial].part
    ensures forall v :: 0 <= v < |s.vths| && s.vths[v].part && k < |s.vths[v].results| ==> (s.vths[v].results[k] <==> v == serial)
  {
    var g, b := ReachableInvariant(s);
    UserFacts(s, g, b, u);
    SerialFacts(s, b);
    serial := b.serialOf[k];
    forall v | 0 <= v < |s.vths| && s.vths[v].part && k < |s.vths[v].results|
      ensures s.vths[v].results[k] <==> v == serial
    {
      UserFacts(s, g, b, v);
    }
  }

  /** In each round it has left, a user was woken once if it waited and never if it got the
      serial result; it is woken at most once in its current round and not beyond. */
  lemma WokenOncePerRound(s: State, v: Vid, k: nat)
    requires Reachable(s) && v < |s.vths| && s.vths[v].part
    ensures k < |s.vths[v].results| ==> s.vths[v].wakes[k] == if s.vths[v].results[k] then 0 else 1
    ensures k == |s.vths[v].results| ==> s.vths[v].wakes[k] <= 1
    ensures k > |s.vths[v].results| ==> s.vths[v].wakes[k] == 0
  {
    var g, b := ReachableInvariant(s);
    UserFacts(s, g, b, v);
    assert s.vths[v].wakes[k] == WakesIn(s.vths[v], g[v].token, k);
  }

  lemma QueuedUser(x: Vth, v: Vid, t: Token, round: nat, waiters: nat, b: Rounds, r: nat)
    requires UserOk(x, v, t, round, waiters, b) && (x.pc.Block? || x.pc.Blocked?)
    requires t == InQueue(r % 2 == 1) && (r == round || r + 1 == round)
    ensures x.part && x.pc.r == r && |x.results| == r && x.arrived == r + 1
  {
  }

  lemma QueueMember(s: State, g: seq<Place>, r: nat, i: nat)
    requires HandOff(s, g) && i < |Queue(s, r)|
    ensures var u := Queue(s, r)[i];
            u < |s.vths| && (s.vths[u].pc.Block? || s.vths[u].pc.Blocked?) && g[u].token == InQueue(r % 2 == 1)
  {
    assert Use(TheHandOff, true);
    var u := Queue(s, r)[i];
    assert u < |g| && VthOk(s.vths[u], u, g[u], s.workers);
  }

  /** The blocked queue of a parity holds waiters of one round only: the current one or,
      on the other queue, the one just completed. */
  lemma QueuesHoldOneRound(s: State, r: nat, i: nat)
    requires Reachable(s) && (r == s.round || r + 1 == s.round) && i < |Queue(s, r)|
    ensures var v := Queue(s, r)[i];
            && v < |s.vths| && s.vths[v].part && (s.vths[v].pc == Block(r) || s.vths[v].pc == Blocked(r))
            && |s.vths[v].results| == r && s.vths[v].arrived == r + 1
  {
    var g, b := ReachableInvariant(s);
    var v := Queue(s, r)[i];
    QueueMember(s, g, r, i);
    UserFacts(s, g, b, v);
    QueuedUser(s.vths[v], v, g[v].token, s.round, s.waiters, b, r);
  }

  /** The message "should not run to here" is never printed: the CAS that resets
      cur_waiters finds the value its caller got on arrival. */
  lemma ResetSucceeds(s: State, v: Vid)
    requires Reachable(s) && v < |s.vths| && s.vths[v].pc.Reset?
    ensures s.curWaiters == s.vths[v].pc.c == s.waiters && s.round == s.vths[v].pc.r
  {
    var g, b := ReachableInvariant(s);
    UserFacts(s, g, b, v);
    BarrierReset(s, g, b, v);
  }

  // ---------------------------------------------------------------------------
  // Nobody is left behind

  /** Where a user stands that has not yet left a round some other user has left. */
  lemma StandsAt(x: Vth, v: Vid, t: Token, round: nat, waiters: nat, b: Rounds, k: nat)
    requires UserOk(x, v, t, round, waiters, b) && x.part && k < round && x.arrived > k && |x.results| <= k
    ensures k + 1 == round && |x.results| == k
    ensures IsWaking(x.pc) || (IsWaiting(x.pc) && x.pc.r == k)
    ensures IsWaiting(x.pc) && !x.pc.SetBlocked? && !x.pc.Push? && !t.InQueue? && !t.InWake? ==> x.wakes[k] == 1
  {
    assert x.wakes[k] == WakesIn(x, t, k);
  }

  /** A waiter of the round before the current one that is not woken is counted. */
  lemma UnwokenCounts(s: State, g: seq<Place>, b: Rounds, v: Vid)
    requires InvWith(s, g, b) && v < |s.vths| && s.vths[v].part && IsWaiting(s.vths[v].pc) && s.vths[v].pc.r + 1 == s.round
    requires s.vths[v].wakes[s.vths[v].pc.r] == 0
    ensures b.serial.Waking?
  {
    var t := g[v].token;
    UserFacts(s, g, b, v);
    UnwokenAt(s.vths[v], v, t, s.round, s.waiters, b);
    if s.vths[v].pc.SetBlocked? || s.vths[v].pc.Push? {
      SumMember(s.vths, v, UnpushedFn(s.round - 1));
      CountsBefore(s, b);
    } else {
      UnwokenToken(s, g, v);
      if t.InQueue? { CountsBefore(s, b); } else { UserFacts(s, g, b, t.u); }
    }
  }

  lemma UnwokenAt(x: Vth, v: Vid, t: Token, round: nat, waiters: nat, b: Rounds)
    requires UserOk(x, v, t, round, waiters, b) && x.part && IsWaiting(x.pc) && x.wakes[x.pc.r] == 0
    ensures x.pc.SetBlocked? || x.pc.Push? || t.InQueue? || t.InWake?
    ensures t.InQueue? && !x.pc.SetBlocked? && !x.pc.Push? ==> t.odd == (x.pc.r % 2 == 1)
  {
    assert x.wakes[x.pc.r] == WakesIn(x, t, x.pc.r);
  }

  lemma UnwokenToken(s: State, g: seq<Place>, v: Vid)
    requires HandOff(s, g) && v < |s.vths| && (s.vths[v].pc.Block? || s.vths[v].pc.Blocked?) && s.vths[v].pc.r + 1 == s.round
    ensures g[v].token.InWake? ==> g[v].token.u < |s.vths| && s.vths[g[v].token.u].pc.Wake?
    ensures g[v].token == InQueue(s.vths[v].pc.r % 2 == 1) ==> Before(s) > 0
  {
    assert Use(TheHandOff, true);
    assert TokenOk(s, g, v);
    if g[v].token == InQueue(s.vths[v].pc.r % 2 == 1) { assert v in Queue(s, s.round + 1); }
  }

  lemma CountsBefore(s: State, b: Rounds)
    requires CountsOk(s, b) && Before(s) > 0
    ensures b.serial.Waking?
  {
    assert Use(TheCounts, true);
  }

  /** The one that gets the serial result of a round does not leave before it has woken all
      others of that round. */
  lemma SerialWakesAll(s: State, u: Vid, v: Vid, k: nat)
    requires Reachable(s) && u < |s.vths| && v < |s.vths| && s.vths[u].part && s.vths[v].part && u != v
    requires k < |s.vths[u].results| && s.vths[u].results[k]
    ensures s.vths[v].wakes[k] == 1
  {
    var g, b := ReachableInvariant(s);
    UserFacts(s, g, b, u);
    UserFacts(s, g, b, v);
    NobodyLeavesEarly(s, u, v);
    SerialFacts(s, b);
    var x := s.vths[v];
    if k < |x.results| {
      WokenOncePerRound(s, v, k);
    } else {
      RoundsLeft(s, g, b, u);
      StandsAt(x, v, g[v].token, s.round, s.waiters, b, k);
      if x.wakes[k] != 1 {
        WokenOncePerRound(s, v, k);
        UnwokenCounts(s, g, b, v);
      }
    }
  }

  lemma RoundsLeft(s: State, g: seq<Place>, b: Rounds, u: Vid)
    requires Barrier(s, g, b) && u < |s.vths| && s.vths[u].part
    ensures |s.vths[u].results| <= s.round
  {
    UserFacts(s, g, b, u);
  }

  /** Has not arrived in round r yet. */
  predicate ToArrive(x: Vth, r: nat) { x.part && x.arrived <= r }

  /** The last to arrive in round r, on its way to wake the others. */
  predicate IsSerial(x: Vth, r: nat) { x.part && (IsClosing(x.pc) || IsWaking(x.pc)) && x.pc.r == r }

  /** Before the round is complete somebody has still to arrive. */
  lemma SomebodyToArrive(s: State, b: Rounds) returns (u: Vid)
    requires CountsOk(s, b) && !b.serial.Closing? && s.waiters > 0
    ensures u < |s.vths| && s.vths[u].part && s.vths[u].arrived != s.round + 1
  {
    assert Use(TheCounts, true);
    if forall u :: 0 <= u < |s.vths| && s.vths[u].part ==> s.vths[u].arrived == s.round + 1 {
      AllCounted(s.vths, s.round);
      assert false;
    }
    u :| 0 <= u < |s.vths| && s.vths[u].part && s.vths[u].arrived != s.round + 1;
  }

  lemma {:induction false} AllCounted(vths: seq<Vth>, r: nat)
    requires forall u :: 0 <= u < |vths| && vths[u].part ==> vths[u].arrived == r + 1
    ensures Sum(vths, ArrivedFn(r)) == Sum(vths, PartOf)
  {
    if |vths| > 0 {
      forall u | 0 <= u < |vths[1..]| && vths[1..][u].part ensures vths[1..][u].arrived == r + 1 { assert vths[1..][u] == vths[u + 1]; }
      AllCounted(vths[1..], r);
    }
  }

  /** No deadlock: whoever waits in the barrier and has not been woken waits for somebody that
      does not wait in this round: a user that has not arrived, or the last to arrive, which
      is about to wake the others. */
  lemma WaitsForSomebody(s: State, v: Vid) returns (u: Vid)
    requires Reachable(s) && v < |s.vths| && s.vths[v].part && IsWaiting(s.vths[v].pc) && s.vths[v].wakes[s.vths[v].pc.r] == 0
    ensures u < |s.vths| && u != v && (ToArrive(s.vths[u], s.vths[v].pc.r) || IsSerial(s.vths[u], s.vths[v].pc.r))
  {
    var g, b := ReachableInvariant(s);
    SomebodyWaits(s, b, v);
    SerialFacts(s, b);
    if b.serial.Closing? {
      u := b.serial.v;
    } else if s.vths[v].pc.r + 1 == s.round {
      UnwokenCounts(s, g, b, v);
      u := b.serial.v;
    } else {
      u := SomebodyToArrive(s, b);
    }
    UserFacts(s, g, b, u);
    UserFacts(s, g, b, v);
    NotYetWoken(s, g, b, v);
    WaitedFor(s.vths[u], u, g[u].token, s.vths[v], v, g[v].token, s.round, s.waiters, b);
  }

  /** A waiter of a round before the one that is being closed has been woken. */
  lemma NotYetWoken(s: State, g: seq<Place>, b: Rounds, v: Vid)
    requires InvWith(s, g, b) && v < |s.vths| && s.vths[v].part && IsWaiting(s.vths[v].pc) && s.vths[v].wakes[s.vths[v].pc.r] == 0
    ensures b.serial.Closing? ==> s.vths[v].pc.r == s.round
  {
    UserFacts(s, g, b, v);
    if s.vths[v].pc.r + 1 == s.round { UnwokenCounts(s, g, b, v); }
  }

  lemma WaitedFor(y: Vth, u: Vid, tu: Token, x: Vth, v: Vid, t: Token, round: nat, waiters: nat, b: Rounds)
    requires UserOk(y, u, tu, round, waiters, b) && y.part && UserOk(x, v, t, round, waiters, b) && x.part && IsWaiting(x.pc)
    requires (b.serial.Closing? ==> x.pc.r == round) && (u == v ==> y == x)
    requires b.serial == Closing(u) || (b.serial == Waking(u) && x.pc.r + 1 == round) || (x.pc.r == round && y.arrived != round + 1)
    ensures u != v && (ToArrive(y, x.pc.r) || IsSerial(y, x.pc.r))
  {
  }

  // ---------------------------------------------------------------------------
  // What a worker does with the vthread it takes

  /** A worker that takes a vthread from the run queue runs it, unless its last worker has not
      switched away from it yet; then it puts it back, and all is as before. */
  lemma TakenIsRun(s: State, w: nat, v: Vid, c: Choice, d: Choice)
    requires Reachable(s) && w < |s.workers| && s.workers[w].Free? && v in s.run
    ensures v < |s.vths|
    ensures var taken := Step(Step(s, w, Take(v)), w, c);
            if IsRun(s, v) then Step(taken, w, d) == s
            else taken == s.(run := s.run - multiset{v}, workers := s.workers[w := Running(v)])
  {
    var g, b := ReachableInvariant(s);
    TakenFacts(s, g, v);
    RunnerIs(s, g, v);
    var s1 := Step(s, w, Take(v));
    assert s1.workers[w] == Got(v) && s1.vths == s.vths;
    if IsRun(s, v) {
      var s2 := Step(s1, w, c);
      assert s2.workers[w] == Requeue(v);
      assert s.workers[w := Free] == s.workers;
      assert s.run - multiset{v} + multiset{v} == s.run;
    }
  }

  lemma TakenFacts(s: State, g: seq<Place>, v: Vid)
    requires HandOff(s, g) && v in s.run
    ensures v < |s.vths| == |g| && (s.vths[v].runnable <==> g[v].runner.NoRunner?)
  {
    assert Use(TheHandOff, true);
    assert v < |g| && g[v].token.InRun?;
    assert VthOk(s.vths[v], v, g[v], s.workers);
  }

  // ---------------------------------------------------------------------------
  // The outcome of a call of pthread_barrier_wait

  lemma {:induction false} RunJoins(s: State, first: seq<(nat, Choice)>, more: seq<(nat, Choice)>)
    ensures Run(s, first + more) == Run(Run(s, first), more)
    decreases |more|
  {
    if |more| == 0 {
      assert first + more == first;
    } else {
      var n := |more| - 1;
      assert (first + more)[..|first + more| - 1] == first + more[..n];
      RunJoins(s, first, more[..n]);
    }
  }

  lemma StaysReachable(s: State, schedule: seq<(nat, Choice)>)
    requires Reachable(s)
    ensures Reachable(Run(s, schedule))
  {
    var s0, before :| Init(s0) && s == Run(s0, before);
    RunJoins(s0, before, schedule);
  }

  /** The steps take vthread v from s, where worker w runs it, through one whole call. */
  ghost predicate IsCall(s: State, schedule: seq<(nat, Choice)>, w: nat, v: Vid)
  {
    && CallBegun(s, schedule, w, v) && Outside(Run(s, schedule), v)
    && (forall k :: 0 < k < |schedule| ==> !Outside(Run(s, schedule[..k]), v))
  }

  ghost predicate CallBegun(s: State, schedule: seq<(nat, Choice)>, w: nat, v: Vid)
  {
    && w < |s.workers| && s.workers[w] == Running(v) && Outside(s, v) && s.vths[v].part
    && |schedule| > 0 && schedule[0] == (w, Wait)
  }

  predicate Outside(s: State, v: Vid) { v < |s.vths| && s.vths[v].pc.Body? }

  /** Within the call nothing is returned; the step that ends it returns one result. */
  predicate InCall(x: Vth, y: Vth)
  {
    y.part == x.part && (if y.pc.Body? then |y.results| == |x.results| + 1 && y.results[..|x.results|] == x.results else y.results == x.results)
  }

  /** What one step does to a vthread within the barrier. */
  lemma CallStep(s: State, w: nat, c: Choice, v: Vid)
    requires v < |s.vths| && !s.vths[v].pc.Body?
    ensures InCall(s.vths[v], Step(s, w, c).vths[v])
  {
    if w < |s.workers| && s.workers[w] == Running(v) { OwnStep(s, w, c, v); } else { OtherVth(s, w, c, v); }
  }

  /** Where a vthread's own step in the barrier leads, and what it returns there. */
  ghost predicate Follows(s: State, x: Vth, y: Vth)
  {
    && y.part == x.part
    && match x.pc
       case LoadRound => y.pc == Arrive(s.round) && y.results == x.results
       case Arrive(r) => (y.pc == SetBlocked(r) || y.pc == Reset(r, s.waiters)) && y.results == x.results
       case SetBlocked(r) => y.pc == Push(r) && y.results == x.results
       case Push(r) => y.pc == Block(r) && y.results == x.results
       case Block(r) => y.pc == Blocked(r) && y.results == x.results
       case Blocked(_) => y.pc == Body && y.results == x.results + [false]
       case Reset(r, n) => y.pc == Advance(r, n) && y.results == x.results
       case Advance(r, n) => if n > 1 then y.pc == Pop(r, n - 1) && y.results == x.results else ReturnsSerial(x, y)
       case Pop(r, left) => if |Queue(s, r)| == 0 then y == x else y.pc == Wake(r, left, Queue(s, r)[0]) && y.results == x.results
       case Wake(r, left, u) =>
         if u >= |s.vths| then y == x else if left > 1 then y.pc == Pop(r, left - 1) && y.results == x.results else ReturnsSerial(x, y)
       case _ => y == x
  }

  predicate ReturnsSerial(x: Vth, y: Vth) { y.pc == Body && y.results == x.results + [true] }

  /** A vthread's own step. */
  lemma OwnStep(s: State, w: nat, c: Choice, v: Vid)
    requires w < |s.workers| && s.workers[w] == Running(v) && v < |s.vths| && !s.vths[v].pc.Body?
    ensures Follows(s, s.vths[v], Step(s, w, c).vths[v])
  {
    var pc := s.vths[v].pc;
    if pc.Wake? { if pc.v < |s.vths| { OwnWake(s, v); } }
    else if pc.Pop? && |Queue(s, pc.r)| > 0 { OwnPop(s, v); }
    else if pc.Reset? || pc.Advance? { OwnClose(s, v); }
    else if IsWaiting(pc) { OwnWait(s, w, c, v); }
  }

  lemma OwnWait(s: State, w: nat, c: Choice, v: Vid)
    requires w < |s.workers| && s.workers[w] == Running(v) && v < |s.vths| && IsWaiting(s.vths[v].pc)
    ensures Follows(s, s.vths[v], Step(s, w, c).vths[v])
  {
    if s.vths[v].pc.Push? { assert Step(s, w, c) == PushStep(s, v); }
  }

  lemma OwnPop(s: State, v: Vid)
    requires v < |s.vths| && s.vths[v].pc.Pop? && |Queue(s, s.vths[v].pc.r)| > 0
    ensures Follows(s, s.vths[v], PopStep(s, v).vths[v])
  {
  }

  lemma OwnClose(s: State, v: Vid)
    requires v < |s.vths| && (s.vths[v].pc.Reset? || s.vths[v].pc.Advance?)
    ensures s.vths[v].pc.Reset? ==> Follows(s, s.vths[v], ResetStep(s, v).vths[v])
    ensures s.vths[v].pc.Advance? ==> Follows(s, s.vths[v], AdvanceStep(s, v).vths[v])
  {
  }

  lemma OwnWake(s: State, v: Vid)
    requires v < |s.vths| && s.vths[v].pc.Wake? && s.vths[v].pc.v < |s.vths|
    ensures Follows(s, s.vths[v], WakeStep(s, v).vths[v])
  {
  }

  /** A step of anybody else changes its runnable flag and its record of wake-ups at most. */
  lemma OtherVth(s: State, w: nat, c: Choice, v: Vid)
    requires v < |s.vths| && !(w < |s.workers| && s.workers[w] == Running(v))
    ensures var x, x' := s.vths[v], Step(s, w, c).vths[v]; x' == x.(runnable := x'.runnable, wakes := x'.wakes)
  {
    if w < |s.workers| && s.workers[w].Running? && s.workers[w].v < |s.vths| { OtherRunning(s, w, c, s.workers[w].v, v); }
  }

  lemma OtherRunning(s: State, w: nat, c: Choice, u: Vid, v: Vid)
    requires w < |s.workers| && s.workers[w] == Running(u) && u < |s.vths| && v < |s.vths| && u != v
    ensures var x, x' := s.vths[v], Step(s, w, c).vths[v]; x' == x.(runnable := x'.runnable, wakes := x'.wakes)
  {
    if Stays(s, s.vths[u].pc) { RunningShape(s, w, u, c); }
    else if s.vths[u].pc.Wake? && s.vths[u].pc.v < |s.vths| { OtherWake(s, u, v); }
    else { assert Step(s, w, c).vths[v] == s.vths[v]; }
  }

  lemma OtherWake(s: State, u: Vid, v: Vid)
    requires u < |s.vths| && v < |s.vths| && u != v && s.vths[u].pc.Wake? && s.vths[u].pc.v < |s.vths|
    ensures var x, x' := s.vths[v], WakeStep(s, u).vths[v]; x' == x.(runnable := x'.runnable, wakes := x'.wakes)
  {
  }

  lemma {:induction false} CallSoFar(s: State, schedule: seq<(nat, Choice)>, w: nat, v: Vid)
    requires CallBegun(s, schedule, w, v) && forall k :: 0 < k < |schedule| ==> !Outside(Run(s, schedule[..k]), v)
    ensures v < |Run(s, schedule).vths| && InCall(s.vths[v], Run(s, schedule).vths[v])
    decreases |schedule|
  {
    var n := |schedule| - 1;
    if n == 0 {
      assert Run(s, schedule[..0]) == s;
    } else {
      forall k | 0 < k <= n ensures schedule[..n][..k] == schedule[..k] {}
      CallSoFar(s, schedule[..n], w, v);
      CallStep(Run(s, schedule[..n]), schedule[n].0, schedule[n].1, v);
    }
  }

  /** pthread_barrier_wait, in every run: when a call returns, its caller has arrived once more
      and got one more result, and every user has arrived in that round. */
  lemma CallOutcome(s: State, schedule: seq<(nat, Choice)>, w: nat, v: Vid, u: Vid)
    requires Reachable(s) && IsCall(s, schedule, w, v) && u < |Run(s, schedule).vths| && Run(s, schedule).vths[u].part
    ensures var x, t := s.vths[v], Run(s, schedule);
            && |t.vths[v].results| == |x.results| + 1 && t.vths[v].results[..|x.results|] == x.results
            && t.vths[v].arrived == x.arrived + 1 == |t.vths[v].results| <= t.vths[u].arrived
  {
    CallSoFar(s, schedule, w, v);
    StaysReachable(s, schedule);
    NobodyLeavesEarly(Run(s, schedule), v, u);
    InBody(s, v);
    InBody(Run(s, schedule), v);
  }

  lemma InBody(s: State, v: Vid)
    requires Reachable(s) && v < |s.vths| && s.vths[v].part && s.vths[v].pc.Body?
    ensures s.vths[v].arrived == |s.vths[v].results|
  {
    var g, b := ReachableInvariant(s);
    UserFacts(s, g, b, v);
  }

  /** Steps of its own that a vthread in the barrier has still to make at most. */
  function StepsLeft(pc: VPC, waiters: nat): nat
  {
    match pc
    case Body => 0
    case LoadRound => 2 * waiters + 6
    case Arrive(_) => 2 * waiters + 5
    case SetBlocked(_) => 4
    case Push(_) => 3
    case Block(_) => 2
    case Blocked(_) => 1
    case Reset(_, _) => 2 * waiters + 2
    case Advance(_, n) => 2 * n + 1
    case Pop(_, left) => 2 * left
    case Wake(_, left, _) => if left > 0 then 2 * left - 1 else 0
    case Finished => 0
  }

  /** Each step that a vthread in the barrier makes itself brings it nearer to its return, but
      for a pop that finds nothing, because a waiter has not pushed itself yet: then it yields.
      Steps of others do not put it off. */
  lemma CallGoesOn(s: State, w: nat, c: Choice, v: Vid)
    requires Reachable(s) && v < |s.vths| && s.vths[v].part && !s.vths[v].pc.Body?
    ensures var pc, pc' := s.vths[v].pc, Step(s, w, c).vths[v].pc;
            if w < |s.workers| && s.workers[w] == Running(v) && !pc.Finished? then
              if pc.Pop? && |Queue(s, pc.r)| == 0 then pc' == pc && Step(s, w, c).workers[w] == Returned(v, StSuspended)
              else StepsLeft(pc', s.waiters) < StepsLeft(pc, s.waiters)
            else pc' == pc
  {
    var g, b := ReachableInvariant(s);
    UserFacts(s, g, b, v);
    if s.vths[v].pc.Wake? { WakeFacts(s, g, v); }
    if w < |s.workers| && s.workers[w] == Running(v) {
      OwnStep(s, w, c, v);
      Nearer(s, s.vths[v], Step(s, w, c).vths[v], v, g[v].token, b);
    } else {
      OtherVth(s, w, c, v);
    }
  }

  lemma Nearer(s: State, x: Vth, y: Vth, v: Vid, t: Token, b: Rounds)
    requires Follows(s, x, y) && UserOk(x, v, t, s.round, s.waiters, b) && x.part && (x.pc.Wake? ==> x.pc.v < |s.vths|)
    ensures x.pc.Finished? || (x.pc.Pop? && |Queue(s, x.pc.r)| == 0) ==> y == x
    ensures !x.pc.Body? && !x.pc.Finished? && !(x.pc.Pop? && |Queue(s, x.pc.r)| == 0) ==> StepsLeft(y.pc, s.waiters) < StepsLeft(x.pc, s.waiters)
  {
  }
}
