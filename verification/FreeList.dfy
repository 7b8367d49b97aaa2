/** The lock-free free list of the concurrent queue: a CAS stack whose nodes carry a
    reference count and a "should be on the free list" bit in one 32-bit word.
    A state holds the shared words and one program counter per thread; a step is one
    atomic load, store or read-modify-write of one thread. */
module FreeList {
  import opened Counting

  type Node = nat
  datatype Link = Null | To(node: Node)

  const WORD := 0x1_0000_0000
  const SHOULD_BE_ON_FREELIST := 0x8000_0000

  /** `fetch_add` on an unsigned 32-bit word. */
  function AddWord(w: nat, d: int): (r: nat)
  {
    (w + d) % WORD
  }

  /** `refs & REFS_MASK`. */
  function RefBits(w: nat): nat { w % SHOULD_BE_ON_FREELIST }

  /** Where `add_knowing_refcount_is_zero` returns to: `add`, or the loop of
      `try_get` with the head it has last seen. */
  datatype Return = ToAdd | ToGet(seen: Link)

  datatype PC =
    | Idle
      // add_knowing_refcount_is_zero(node)
    | LinkLoad(node: Node, ret: Return)              // about to load freeListHead
    | LinkNext(node: Node, head: Link, ret: Return)  // about to store node->freeListNext
    | LinkRefs(node: Node, head: Link, ret: Return)  // about to store 1 in node->freeListRefs
    | LinkCas(node: Node, head: Link, ret: Return)   // about to CAS freeListHead
    | LinkUndo(node: Node, head: Link, ret: Return)  // about to add SHOULD_BE_ON_FREELIST - 1
      // try_get()
    | GetHead                                        // about to load freeListHead
    | GetRefs(node: Node)                            // about to load head->freeListRefs
    | GetInc(node: Node, refs: nat)                  // about to CAS the count up by one
    | GetNext(node: Node)                            // about to load head->freeListNext
    | GetCas(node: Node, next: Link)                 // about to CAS freeListHead to next
    | GetTake(node: Node)                            // asserts the bit is clear, adds -2, returns the node
    | GetDrop(node: Node, seen: Link)                // about to add -1 to prevHead->freeListRefs

  /** `owned` is the bag of nodes in the hands of callers: `add` takes one out of it,
      a successful `try_get` puts one in. */
  datatype State = State(head: Link, refs: seq<nat>, next: seq<Link>, owned: multiset<Node>, threads: seq<PC>)

  /** What the scheduled thread's caller asks for; used only by an idle thread. */
  datatype Call = Add(node: Node) | TryGet

  function Goto(s: State, t: nat, pc: PC): State
    requires t < |s.threads|
  {
    s.(threads := s.threads[t := pc])
  }

  /** The head of the `while (head != nullptr)` loop. */
  function Loop(head: Link): PC
  {
    match head
    case Null => Idle
    case To(n) => GetRefs(n)
  }

  function Returned(ret: Return): PC
  {
    match ret
    case ToAdd => Idle
    case ToGet(seen) => Loop(seen)
  }

  ghost predicate InRange(s: State, l: Link) { l.To? ==> l.node < |s.refs| }

  ghost predicate ThreadInRange(s: State, pc: PC)
  {
    && (!pc.Idle? && !pc.GetHead? ==> pc.node < |s.refs|)
    && (pc.LinkNext? || pc.LinkRefs? || pc.LinkCas? || pc.LinkUndo? ==> InRange(s, pc.head))
    && (Links(pc) && pc.ret.ToGet? ==> InRange(s, pc.ret.seen))
    && (pc.GetDrop? ==> InRange(s, pc.seen))
  }

  /** `t` stands at a program point that works on an existing node. */
  ghost predicate AtNode(s: State, t: nat)
  {
    && t < |s.threads| && |s.refs| == |s.next|
    && !s.threads[t].Idle? && !s.threads[t].GetHead? && s.threads[t].node < |s.refs|
  }

  /** add: the fetch_add that sets the bit; the last reference holder, if any, links. */
  ghost function AddNode(s: State, t: nat, n: Node): State
    requires t < |s.threads| && n < |s.refs|
  {
    var was := s.refs[n];
    Goto(s.(refs := s.refs[n := AddWord(was, SHOULD_BE_ON_FREELIST)], owned := s.owned - multiset{n}), t,
         if was == 0 then LinkLoad(n, ToAdd) else Idle)
  }

  ghost function StoreNext(s: State, t: nat): State
    requires AtNode(s, t) && s.threads[t].LinkNext?
  {
    var LinkNext(n, h, ret) := s.threads[t];
    Goto(s.(next := s.next[n := h]), t, LinkRefs(n, h, ret))
  }

  ghost function StoreRefs(s: State, t: nat): State
    requires AtNode(s, t) && s.threads[t].LinkRefs?
  {
    var LinkRefs(n, h, ret) := s.threads[t];
    Goto(s.(refs := s.refs[n := 1]), t, LinkCas(n, h, ret))
  }

  ghost function CasLink(s: State, t: nat): State
    requires AtNode(s, t) && s.threads[t].LinkCas?
  {
    var LinkCas(n, h, ret) := s.threads[t];
    if s.head == h then Goto(s.(head := To(n)), t, Returned(ret)) else Goto(s, t, LinkUndo(n, s.head, ret))
  }

  ghost function UndoLink(s: State, t: nat): State
    requires AtNode(s, t) && s.threads[t].LinkUndo?
  {
    var LinkUndo(n, h, ret) := s.threads[t];
    var was := s.refs[n];
    Goto(s.(refs := s.refs[n := AddWord(was, SHOULD_BE_ON_FREELIST - 1)]), t,
         if was == 1 then LinkNext(n, h, ret) else Returned(ret))
  }

  ghost function CasRefs(s: State, t: nat): State
    requires AtNode(s, t) && s.threads[t].GetInc?
  {
    var GetInc(n, r) := s.threads[t];
    if s.refs[n] == r then Goto(s.(refs := s.refs[n := AddWord(r, 1)]), t, GetNext(n)) else Goto(s, t, GetHead)
  }

  ghost function CasTake(s: State, t: nat): State
    requires AtNode(s, t) && s.threads[t].GetCas?
  {
    var GetCas(n, nx) := s.threads[t];
    if s.head == To(n) then Goto(s.(head := nx), t, GetTake(n)) else Goto(s, t, GetDrop(n, s.head))
  }

  /** Drops the thread's and the list's reference and returns the node to the caller. */
  ghost function Take(s: State, t: nat): State
    requires AtNode(s, t) && s.threads[t].GetTake?
  {
    var n := s.threads[t].node;
    Goto(s.(refs := s.refs[n := AddWord(s.refs[n], -2)], owned := s.owned + multiset{n}), t, Idle)
  }

  ghost function Drop(s: State, t: nat): State
    requires AtNode(s, t) && s.threads[t].GetDrop?
  {
    var GetDrop(n, seen) := s.threads[t];
    var was := s.refs[n];
    Goto(s.(refs := s.refs[n := AddWord(was, -1)]), t,
         if was == SHOULD_BE_ON_FREELIST + 1 then LinkLoad(n, ToGet(seen)) else Loop(seen))
  }

  /** One atomic step of thread `t`. An idle thread starts the operation `call`;
      only the owner of a node may add it. */
  ghost function Step(s: State, t: nat, call: Call): (s': State)
    requires |s.refs| == |s.next|
    ensures |s'.refs| == |s'.next| == |s.refs| && |s'.threads| == |s.threads|
  {
    if t >= |s.threads| then s
    else if s.threads[t].Idle? then
      if call.TryGet? then Goto(s, t, GetHead)
      else if call.node < |s.refs| && s.owned[call.node] > 0 then AddNode(s, t, call.node)
      else s
    else if s.threads[t].GetHead? then Goto(s, t, Loop(s.head))
    else if !AtNode(s, t) then s
    else
      match s.threads[t]
      case LinkLoad(n, ret) => Goto(s, t, LinkNext(n, s.head, ret))
      case LinkNext(_, _, _) => StoreNext(s, t)
      case LinkRefs(_, _, _) => StoreRefs(s, t)
      case LinkCas(_, _, _) => CasLink(s, t)
      case LinkUndo(_, _, _) => UndoLink(s, t)
      case GetRefs(n) => Goto(s, t, if RefBits(s.refs[n]) == 0 then GetHead else GetInc(n, s.refs[n]))
      case GetInc(_, _) => CasRefs(s, t)
      case GetNext(n) => Goto(s, t, GetCas(n, s.next[n]))
      case GetCas(_, _) => CasTake(s, t)
      case GetTake(_) => Take(s, t)
      case GetDrop(_, _) => Drop(s, t)
  }

  // ---------------------------------------------------------------------------
  // The inductive invariant

  /** The one place a node is in. */
  datatype Place =
    | Owned              // in the hands of a caller
    | Listed             // on the list
    | Linking(t: nat)    // thread t runs add_knowing_refcount_is_zero on it
    | Taking(t: nat)     // thread t has unlinked it and is about to return it
    | Pending            // flagged; the last thread to drop its reference will link it

  /** Witness of the invariant: the list from head to last, and the place of every node. */
  datatype Ghost = Ghost(list: seq<Node>, place: seq<Place>)

  /** The reference a thread holds on `n` for itself. */
  function HeldBy(pc: PC, n: Node): nat
  {
    if Holds(pc) && pc.node == n then 1 else 0
  }

  function HeldFn(n: Node): PC -> nat { (pc: PC) => HeldBy(pc, n) }

  /** How many threads hold a reference on `n`. */
  ghost function Held(threads: seq<PC>, n: Node): nat { Sum(threads, HeldFn(n)) }

  /** Runs add_knowing_refcount_is_zero. */
  predicate Links(pc: PC) { pc.LinkLoad? || pc.LinkNext? || pc.LinkRefs? || pc.LinkCas? || pc.LinkUndo? }

  /** Has raised the count of its node and not yet lowered it. */
  predicate Holds(pc: PC) { pc.GetNext? || pc.GetCas? || pc.GetTake? || pc.GetDrop? }

  predicate BeforeRefs(pc: PC) { pc.LinkLoad? || pc.LinkNext? || pc.LinkRefs? }

  ghost predicate Flagged(s: State, p: Place)
  {
    p.Pending? || (p.Linking? && p.t < |s.threads| && BeforeRefs(s.threads[p.t]))
  }

  /** The list's own reference, from the store of 1 to the add of -2. */
  ghost predicate ListReference(s: State, p: Place)
  {
    p.Listed? || p.Taking? || (p.Linking? && p.t < |s.threads| && !BeforeRefs(s.threads[p.t]))
  }

  ghost function CountOf(s: State, p: Place, n: Node): nat
  {
    (if ListReference(s, p) then 1 else 0) + Held(s.threads, n)
  }

  function Successor(list: seq<Node>, i: nat): Link
    requires i < |list|
  {
    if i + 1 < |list| then To(list[i + 1]) else Null
  }

  ghost predicate ListShape(s: State, g: Ghost)
    requires |g.place| == |s.refs| == |s.next|
  {
    && s.head == (if |g.list| == 0 then Null else To(g.list[0]))
    && (forall i :: 0 <= i < |g.list| ==> g.list[i] < |s.refs|)
    && (forall i :: 0 <= i < |g.list| ==> s.next[g.list[i]] == Successor(g.list, i))
    && (forall i, j :: 0 <= i < j < |g.list| ==> g.list[i] != g.list[j])
    && (forall n :: 0 <= n < |s.refs| ==> (g.place[n].Listed? <==> n in g.list))
  }

  ghost predicate PlaceOk(s: State, g: Ghost, n: Node)
    requires n < |g.place| == |s.refs| == |s.next|
  {
    var p := g.place[n];
    && s.owned[n] == (if p.Owned? then 1 else 0)
    && (p.Linking? ==> p.t < |s.threads| && Links(s.threads[p.t]) && s.threads[p.t].node == n)
    && (p.Taking? ==> p.t < |s.threads| && s.threads[p.t] == GetTake(n))
    && (p.Linking? && BeforeRefs(s.threads[p.t]) ==> Held(s.threads, n) == 0)
    && (p.Pending? ==> Held(s.threads, n) > 0)
    && s.refs[n] == CountOf(s, p, n) + (if Flagged(s, p) then SHOULD_BE_ON_FREELIST else 0)
  }

  ghost predicate ThreadOk(s: State, g: Ghost, t: nat)
    requires t < |s.threads| && |g.place| == |s.refs| == |s.next|
  {
    var pc := s.threads[t];
    && ThreadInRange(s, pc)
    && (Links(pc) ==> g.place[pc.node] == Linking(t))
    && (pc.GetTake? ==> g.place[pc.node] == Taking(t))
    && (pc.LinkRefs? || pc.LinkCas? ==> s.next[pc.node] == pc.head)
    && (pc.GetCas? ==> s.next[pc.node] == pc.next)
    && (pc.GetInc? ==> RefBits(pc.refs) != 0)
  }

  ghost predicate InvWith(s: State, g: Ghost)
  {
    && |g.place| == |s.refs| == |s.next|
    && |s.threads| + 1 < SHOULD_BE_ON_FREELIST
    && ListShape(s, g)
    && (forall n :: 0 <= n < |s.refs| ==> PlaceOk(s, g, n))
    && (forall t :: 0 <= t < |s.threads| ==> ThreadOk(s, g, t))
  }

  ghost predicate Inv(s: State) { exists g :: InvWith(s, g) }

  // ---------------------------------------------------------------------------
  // Helpers

  /** Only the stepping thread's contribution to a reference count changes. */
  lemma HeldUpdate(threads: seq<PC>, t: nat, pc: PC)
    requires t < |threads|
    ensures forall n: Node :: Held(threads[t := pc], n) == Held(threads, n) - HeldBy(threads[t], n) + HeldBy(pc, n)
  {
    forall n: Node
      ensures Held(threads[t := pc], n) == Held(threads, n) - HeldBy(threads[t], n) + HeldBy(pc, n)
    {
      SumUpdate(threads, t, pc, HeldFn(n));
    }
  }

  lemma HeldAtLeast(threads: seq<PC>, t: nat, n: Node)
    requires t < |threads|
    ensures HeldBy(threads[t], n) <= Held(threads, n) <= |threads|
  {
    SumMember(threads, t, HeldFn(n));
    SumBound(threads, HeldFn(n), 1);
  }

  /** Nobody holds a reference on a node whose count is zero. */
  lemma HeldNone(threads: seq<PC>, n: Node)
    requires Held(threads, n) == 0
    ensures forall t :: 0 <= t < |threads| ==> HeldBy(threads[t], n) == 0
  {
    forall t | 0 <= t < |threads| ensures HeldBy(threads[t], n) == 0 {
      HeldAtLeast(threads, t, n);
    }
  }

  /** Thread `t`, before or after its step, is busy with node `n` only. */
  ghost predicate Busy(pc: PC, n: Node)
  {
    Holds(pc) || Links(pc) ==> pc.node == n
  }

  /** From `(s, g)` to `(s', g')` nothing changes but node `n` and thread `t`; no other
      thread is at work on `n` if its place changes, nor holds it if its next changes. */
  ghost predicate Touches(s: State, g: Ghost, s': State, g': Ghost, t: nat, n: Node)
  {
    && t < |s.threads| == |s'.threads| && s'.threads == s.threads[t := s'.threads[t]]
    && n < |s.refs| == |s.next| == |s'.refs| == |s'.next| == |g.place| == |g'.place|
    && Busy(s.threads[t], n) && Busy(s'.threads[t], n)
    && (forall m :: 0 <= m < |s.refs| && m != n ==>
          s'.refs[m] == s.refs[m] && s'.next[m] == s.next[m] && g'.place[m] == g.place[m] && s'.owned[m] == s.owned[m])
    && (g'.place[n] == g.place[n] || (g.place[n].Linking? || g.place[n].Taking? ==> g.place[n].t == t))
    && (s'.next[n] == s.next[n] || (g.place[n] == Linking(t) && Held(s.threads, n) == 0))
  }

  lemma FrameHeld(s: State, g: Ghost, s': State, g': Ghost, t: nat, n: Node)
    requires Touches(s, g, s', g', t, n)
    ensures forall m: Node :: m != n ==> Held(s'.threads, m) == Held(s.threads, m)
    ensures Held(s'.threads, n) == Held(s.threads, n) - HeldBy(s.threads[t], n) + HeldBy(s'.threads[t], n)
    ensures HeldBy(s.threads[t], n) <= Held(s.threads, n) <= |s.threads|
    ensures Held(s'.threads, n) <= |s.threads|
  {
    HeldUpdate(s.threads, t, s'.threads[t]);
    HeldAtLeast(s.threads, t, n);
    HeldAtLeast(s'.threads, t, n);
  }

  lemma FrameNodes(s: State, g: Ghost, s': State, g': Ghost, t: nat, n: Node)
    requires InvWith(s, g) && Touches(s, g, s', g', t, n)
    ensures forall m :: 0 <= m < |s.refs| && m != n ==> PlaceOk(s', g', m)
  {
    FrameHeld(s, g, s', g', t, n);
    forall m | 0 <= m < |s.refs| && m != n ensures PlaceOk(s', g', m) { assert PlaceOk(s, g, m); }
  }

  lemma FrameThreads(s: State, g: Ghost, s': State, g': Ghost, t: nat, n: Node)
    requires InvWith(s, g) && Touches(s, g, s', g', t, n)
    ensures forall u :: 0 <= u < |s.threads| && u != t ==> ThreadOk(s', g', u)
  {
    if Held(s.threads, n) == 0 { HeldNone(s.threads, n); }
    forall u | 0 <= u < |s.threads| && u != t ensures ThreadOk(s', g', u) {
      assert ThreadOk(s, g, u) && s'.threads[u] == s.threads[u];
    }
  }

  /** What is left to show after a step that touches only node `n` and thread `t`. */
  lemma Assemble(s: State, g: Ghost, s': State, g': Ghost, t: nat, n: Node)
    requires InvWith(s, g) && Touches(s, g, s', g', t, n)
    requires ListShape(s', g') && PlaceOk(s', g', n) && ThreadOk(s', g', t)
    ensures InvWith(s', g')
  {
    FrameNodes(s, g, s', g', t, n);
    FrameThreads(s, g, s', g', t, n);
  }

  /** The list is untouched by a change of a node that is not on it. */
  lemma SameList(s: State, g: Ghost, s': State, g': Ghost, t: nat, n: Node)
    requires InvWith(s, g) && Touches(s, g, s', g', t, n)
    requires s'.head == s.head && g'.list == g.list
    requires !g.place[n].Listed? && !g'.place[n].Listed?
    ensures ListShape(s', g')
  {
    assert n !in g.list;
    assert forall i :: 0 <= i < |g.list| ==> g.list[i] != n;
  }

  /** A thread back in a loop head, or done, has nothing to keep. */
  lemma FreeThread(s: State, g: Ghost, t: nat, seen: Link)
    requires t < |s.threads| && |g.place| == |s.refs| == |s.next|
    requires InRange(s, seen) && s.threads[t] in {Idle, Loop(seen)}
    ensures ThreadOk(s, g, t) && !Holds(s.threads[t]) && !Links(s.threads[t])
  {
  }

  /** No addition to a reference word ever wraps. */
  lemma AddWordExact(w: nat, d: int)
    requires 0 <= w + d < WORD
    ensures AddWord(w, d) == w + d
  {
  }

  /** The low 31 bits of a reference word are the count. */
  lemma RefBitsAreCount(s: State, g: Ghost, n: Node)
    requires InvWith(s, g) && n < |s.refs|
    ensures RefBits(s.refs[n]) == CountOf(s, g.place[n], n)
    ensures Held(s.threads, n) <= |s.threads|
  {
    assert PlaceOk(s, g, n);
    SumBound(s.threads, HeldFn(n), 1);
    var c := CountOf(s, g.place[n], n);
    LowBits(s.refs[n], c);
  }

  lemma LowBits(w: nat, c: nat)
    requires c < SHOULD_BE_ON_FREELIST && (w == c || w == SHOULD_BE_ON_FREELIST + c)
    ensures RefBits(w) == c
  {
  }

  // ---------------------------------------------------------------------------
  // Every step keeps the invariant, one lemma per program point

  /** A step that moves a program counter and nothing else. */
  lemma StepLocal(s: State, g: Ghost, t: nat, pc: PC)
    requires InvWith(s, g) && t < |s.threads|
    requires Holds(pc) == Holds(s.threads[t]) && Links(pc) == Links(s.threads[t])
    requires Holds(pc) || Links(pc) ==> pc.node == s.threads[t].node
    requires BeforeRefs(s.threads[t]) == BeforeRefs(pc)
    requires !s.threads[t].GetTake? && !pc.GetTake?
    requires ThreadOk(Goto(s, t, pc), g, t)
    ensures InvWith(Goto(s, t, pc), g)
  {
    var s' := Goto(s, t, pc);
    HeldUpdate(s.threads, t, pc);
    forall n | 0 <= n < |s.refs| ensures PlaceOk(s', g, n) { assert PlaceOk(s, g, n); }
    forall u | 0 <= u < |s'.threads| ensures ThreadOk(s', g, u) { assert ThreadOk(s, g, u); }
  }

  lemma StepAdd(s: State, g: Ghost, t: nat, n: Node) returns (g': Ghost)
    requires InvWith(s, g) && t < |s.threads| && s.threads[t].Idle?
    requires n < |s.refs| && s.owned[n] > 0
    ensures InvWith(AddNode(s, t, n), g')
  {
    assert PlaceOk(s, g, n);
    var s' := AddNode(s, t, n);
    g' := g.(place := g.place[n := if s.refs[n] == 0 then Linking(t) else Pending]);
    HeldAtLeast(s.threads, t, n);
    AddWordExact(s.refs[n], SHOULD_BE_ON_FREELIST);
    FrameHeld(s, g, s', g', t, n);
    assert ListShape(s', g') by { SameList(s, g, s', g', t, n); }
    assert PlaceOk(s', g', n);
    assert ThreadOk(s', g', t);
    Assemble(s, g, s', g', t, n);
  }

  lemma StepLinkNext(s: State, g: Ghost, t: nat)
    requires InvWith(s, g) && AtNode(s, t) && s.threads[t].LinkNext?
    ensures InvWith(StoreNext(s, t), g)
  {
    var n := s.threads[t].node;
    assert ThreadOk(s, g, t) && PlaceOk(s, g, n);
    var s' := StoreNext(s, t);
    FrameHeld(s, g, s', g, t, n);
    assert ListShape(s', g) by { SameList(s, g, s', g, t, n); }
    Assemble(s, g, s', g, t, n);
  }

  lemma StepLinkRefs(s: State, g: Ghost, t: nat)
    requires InvWith(s, g) && AtNode(s, t) && s.threads[t].LinkRefs?
    ensures InvWith(StoreRefs(s, t), g)
  {
    var n := s.threads[t].node;
    assert ThreadOk(s, g, t) && PlaceOk(s, g, n);
    var s' := StoreRefs(s, t);
    FrameHeld(s, g, s', g, t, n);
    assert ListShape(s', g) by { SameList(s, g, s', g, t, n); }
    Assemble(s, g, s', g, t, n);
  }

  /** The CAS that links: the node becomes the head and its next is the old head. */
  lemma StepLinkCas(s: State, g: Ghost, t: nat) returns (g': Ghost)
    requires InvWith(s, g) && AtNode(s, t) && s.threads[t].LinkCas? && s.head == s.threads[t].head
    ensures InvWith(CasLink(s, t), g')
  {
    var n := s.threads[t].node;
    assert ThreadOk(s, g, t) && PlaceOk(s, g, n);
    var s' := CasLink(s, t);
    g' := Ghost([n] + g.list, g.place[n := Listed]);
    var ret := s.threads[t].ret;
    FreeThread(s', g', t, if ret.ToGet? then ret.seen else Null);
    FrameHeld(s, g, s', g', t, n);
    assert ListShape(s', g') by { ConsShape(s, g, s', g', n); }
    assert PlaceOk(s', g', n);
    Assemble(s, g, s', g', t, n);
  }

  lemma ConsShape(s: State, g: Ghost, s': State, g': Ghost, n: Node)
    requires n < |g.place| == |s.refs| == |s.next| && ListShape(s, g) && !g.place[n].Listed?
    requires s' == s.(head := To(n), threads := s'.threads) && s.next[n] == s.head
    requires g' == Ghost([n] + g.list, g.place[n := Listed])
    ensures ListShape(s', g')
  {
    forall i | 0 <= i < |g'.list| ensures s'.next[g'.list[i]] == Successor(g'.list, i) {
      if i > 0 { assert g'.list[i] == g.list[i - 1]; }
    }
  }

  lemma StepLinkUndo(s: State, g: Ghost, t: nat) returns (g': Ghost)
    requires InvWith(s, g) && AtNode(s, t) && s.threads[t].LinkUndo?
    ensures InvWith(UndoLink(s, t), g')
  {
    var n := s.threads[t].node;
    assert ThreadOk(s, g, t) && PlaceOk(s, g, n);
    var s' := UndoLink(s, t);
    g' := if s.refs[n] == 1 then g else g.(place := g.place[n := Pending]);
    var ret := s.threads[t].ret;
    HeldAtLeast(s.threads, t, n);
    AddWordExact(s.refs[n], SHOULD_BE_ON_FREELIST - 1);
    if s.refs[n] != 1 { FreeThread(s', g', t, if ret.ToGet? then ret.seen else Null); }
    FrameHeld(s, g, s', g', t, n);
    assert ListShape(s', g') by { SameList(s, g, s', g', t, n); }
    assert PlaceOk(s', g', n);
    assert ThreadOk(s', g', t);
    Assemble(s, g, s', g', t, n);
  }

  lemma StepGetInc(s: State, g: Ghost, t: nat)
    requires InvWith(s, g) && AtNode(s, t) && s.threads[t].GetInc?
    requires s.refs[s.threads[t].node] == s.threads[t].refs
    ensures InvWith(CasRefs(s, t), g)
  {
    var n, s' := s.threads[t].node, CasRefs(s, t);
    GetIncCounts(s, g, t);
    GetIncPlace(s, g, t);
    assert ListShape(s', g);
    Assemble(s, g, s', g, t, n);
  }

  /** The count was not zero, and the increment does not overflow. */
  lemma GetIncCounts(s: State, g: Ghost, t: nat)
    requires InvWith(s, g) && AtNode(s, t) && s.threads[t].GetInc?
    requires s.refs[s.threads[t].node] == s.threads[t].refs
    ensures var n, s' := s.threads[t].node, CasRefs(s, t);
            && CountOf(s, g.place[n], n) > 0
            && s' == Goto(s.(refs := s.refs[n := s.refs[n] + 1]), t, GetNext(n))
  {
    var n := s.threads[t].node;
    assert ThreadOk(s, g, t) && PlaceOk(s, g, n);
    RefBitsAreCount(s, g, n);
    AddWordExact(s.refs[n], 1);
  }

  lemma GetIncPlace(s: State, g: Ghost, t: nat)
    requires InvWith(s, g) && AtNode(s, t) && s.threads[t].GetInc?
    requires var n := s.threads[t].node;
             CountOf(s, g.place[n], n) > 0 && CasRefs(s, t) == Goto(s.(refs := s.refs[n := s.refs[n] + 1]), t, GetNext(n))
    ensures Touches(s, g, CasRefs(s, t), g, t, s.threads[t].node)
    ensures PlaceOk(CasRefs(s, t), g, s.threads[t].node) && ThreadOk(CasRefs(s, t), g, t)
  {
    var n, s' := s.threads[t].node, CasRefs(s, t);
    assert ThreadOk(s, g, t) && PlaceOk(s, g, n);
    FrameHeld(s, g, s', g, t, n);
  }

  /** The CAS that unlinks: the head's true successor becomes the head. */
  lemma StepGetCas(s: State, g: Ghost, t: nat) returns (g': Ghost)
    requires InvWith(s, g) && AtNode(s, t) && s.threads[t].GetCas? && s.head == To(s.threads[t].node)
    ensures g'.list == g.list[1..] && |g.list| > 0 && g.list[0] == s.threads[t].node
    ensures InvWith(CasTake(s, t), g')
  {
    var n := s.threads[t].node;
    assert ThreadOk(s, g, t) && PlaceOk(s, g, n);
    var s' := CasTake(s, t);
    g' := Ghost(g.list[1..], g.place[n := Taking(t)]);
    GetCasPlace(s, g, t, g');
    TailShape(s, g, s', g', t, n);
    Assemble(s, g, s', g', t, n);
  }

  lemma GetCasPlace(s: State, g: Ghost, t: nat, g': Ghost)
    requires InvWith(s, g) && AtNode(s, t) && s.threads[t].GetCas? && s.head == To(s.threads[t].node)
    requires g' == Ghost(g.list[1..], g.place[s.threads[t].node := Taking(t)])
    ensures Touches(s, g, CasTake(s, t), g', t, s.threads[t].node)
    ensures PlaceOk(CasTake(s, t), g', s.threads[t].node) && ThreadOk(CasTake(s, t), g', t)
  {
    var n, s' := s.threads[t].node, CasTake(s, t);
    assert ThreadOk(s, g, t) && PlaceOk(s, g, n);
    FrameHeld(s, g, s', g', t, n);
  }

  lemma TailShape(s: State, g: Ghost, s': State, g': Ghost, t: nat, n: Node)
    requires n < |g.place| == |s.refs| == |s.next| && ListShape(s, g)
    requires s.head == To(n) && s' == s.(head := s.next[n], threads := s'.threads)
    requires g' == Ghost(g.list[1..], g.place[n := Taking(t)])
    ensures ListShape(s', g')
  {
    assert g.list == [n] + g'.list;
    forall i | 0 <= i < |g'.list| ensures s'.next[g'.list[i]] == Successor(g'.list, i) {
      assert g'.list[i] == g.list[i + 1];
    }
  }

  lemma StepGetTake(s: State, g: Ghost, t: nat) returns (g': Ghost)
    requires InvWith(s, g) && AtNode(s, t) && s.threads[t].GetTake?
    ensures InvWith(Take(s, t), g')
  {
    var n := s.threads[t].node;
    assert ThreadOk(s, g, t) && PlaceOk(s, g, n);
    var s' := Take(s, t);
    g' := g.(place := g.place[n := Owned]);
    FreeThread(s', g', t, Null);
    HeldAtLeast(s.threads, t, n);
    AddWordExact(s.refs[n], -2);
    FrameHeld(s, g, s', g', t, n);
    assert ListShape(s', g') by { SameList(s, g, s', g', t, n); }
    assert PlaceOk(s', g', n);
    Assemble(s, g, s', g', t, n);
  }

  /** The last reference to a flagged node is dropped: this thread must link it. */
  lemma StepGetDropLast(s: State, g: Ghost, t: nat) returns (g': Ghost)
    requires InvWith(s, g) && AtNode(s, t) && s.threads[t].GetDrop?
    requires s.refs[s.threads[t].node] == SHOULD_BE_ON_FREELIST + 1
    ensures InvWith(Drop(s, t), g')
  {
    var n := s.threads[t].node;
    assert ThreadOk(s, g, t) && PlaceOk(s, g, n);
    HeldAtLeast(s.threads, t, n);
    assert g.place[n].Pending?;
    var s' := Drop(s, t);
    g' := g.(place := g.place[n := Linking(t)]);
    AddWordExact(s.refs[n], -1);
    FrameHeld(s, g, s', g', t, n);
    assert ListShape(s', g') by { SameList(s, g, s', g', t, n); }
    assert PlaceOk(s', g', n);
    assert ThreadOk(s', g', t);
    Assemble(s, g, s', g', t, n);
  }

  lemma StepGetDrop(s: State, g: Ghost, t: nat)
    requires InvWith(s, g) && AtNode(s, t) && s.threads[t].GetDrop?
    requires s.refs[s.threads[t].node] != SHOULD_BE_ON_FREELIST + 1
    ensures InvWith(Drop(s, t), g)
  {
    var n := s.threads[t].node;
    assert ThreadOk(s, g, t) && PlaceOk(s, g, n);
    HeldAtLeast(s.threads, t, n);
    var s' := Drop(s, t);
    AddWordExact(s.refs[n], -1);
    FreeThread(s', g, t, s.threads[t].seen);
    FrameHeld(s, g, s', g, t, n);
    assert ListShape(s', g);
    assert PlaceOk(s', g, n);
    Assemble(s, g, s', g, t, n);
  }

  lemma StepLinks(s: State, g: Ghost, t: nat, call: Call) returns (g': Ghost)
    requires InvWith(s, g) && t < |s.threads| && Links(s.threads[t])
    ensures InvWith(Step(s, t, call), g')
  {
    g' := g;
    assert ThreadOk(s, g, t);
    match s.threads[t]
    case LinkLoad(n, ret) => StepLocal(s, g, t, LinkNext(n, s.head, ret));
    case LinkNext(_, _, _) => StepLinkNext(s, g, t);
    case LinkRefs(_, _, _) => StepLinkRefs(s, g, t);
    case LinkCas(n, h, ret) =>
      if s.head == h { g' := StepLinkCas(s, g, t); } else { StepLocal(s, g, t, LinkUndo(n, s.head, ret)); }
    case LinkUndo(_, _, _) => g' := StepLinkUndo(s, g, t);
  }

  lemma StepGets(s: State, g: Ghost, t: nat, call: Call) returns (g': Ghost)
    requires InvWith(s, g) && t < |s.threads| && !Links(s.threads[t]) && !s.threads[t].Idle?
    ensures InvWith(Step(s, t, call), g')
  {
    g' := g;
    assert ThreadOk(s, g, t);
    match s.threads[t]
    case GetHead => StepLocal(s, g, t, Loop(s.head));
    case GetRefs(n) => StepLocal(s, g, t, if RefBits(s.refs[n]) == 0 then GetHead else GetInc(n, s.refs[n]));
    case GetInc(n, r) =>
      if s.refs[n] == r { StepGetInc(s, g, t); } else { StepLocal(s, g, t, GetHead); }
    case GetNext(n) => StepLocal(s, g, t, GetCas(n, s.next[n]));
    case GetCas(n, nx) =>
      if s.head == To(n) { g' := StepGetCas(s, g, t); } else { StepLocal(s, g, t, GetDrop(n, s.head)); }
    case GetTake(_) => g' := StepGetTake(s, g, t);
    case GetDrop(n, _) =>
      if s.refs[n] == SHOULD_BE_ON_FREELIST + 1 { g' := StepGetDropLast(s, g, t); } else { StepGetDrop(s, g, t); }
  }

  lemma StepKeeps(s: State, g: Ghost, t: nat, call: Call) returns (g': Ghost)
    requires InvWith(s, g)
    ensures InvWith(Step(s, t, call), g')
  {
    g' := g;
    if t >= |s.threads| {
    } else if Links(s.threads[t]) {
      g' := StepLinks(s, g, t, call);
    } else if !s.threads[t].Idle? {
      g' := StepGets(s, g, t, call);
    } else if call.TryGet? {
      StepLocal(s, g, t, GetHead);
    } else if call.node < |s.refs| && s.owned[call.node] > 0 {
      g' := StepAdd(s, g, t, call.node);
    }
  }

  // ---------------------------------------------------------------------------
  // Runs

  datatype Action = Action(thread: nat, call: Call)

  /** The state after the given schedule of atomic steps. */
  ghost function Run(s: State, actions: seq<Action>): (r: State)
    requires |s.refs| == |s.next|
    ensures |r.refs| == |r.next|
  {
    if |actions| == 0 then s else
    var last := actions[|actions| - 1];
    Step(Run(s, actions[..|actions| - 1]), last.thread, last.call)
  }

  /** A new free list: empty, every node unreferenced and in the hands of a caller,
      and fewer than 2^31 - 1 threads. */
  ghost predicate Init(s: State)
  {
    && s.head == Null && |s.refs| == |s.next| && |s.threads| + 1 < SHOULD_BE_ON_FREELIST
    && (forall n :: 0 <= n < |s.refs| ==> s.refs[n] == 0 && s.owned[n] == 1)
    && (forall t :: 0 <= t < |s.threads| ==> s.threads[t] == Idle)
  }

  lemma {:induction false} RunInvariant(s: State, actions: seq<Action>)
    requires Init(s)
    ensures Inv(Run(s, actions))
  {
    if |actions| == 0 {
      var g := Ghost([], seq(|s.refs|, i => Owned));
      forall n | 0 <= n < |s.refs| ensures PlaceOk(s, g, n) {
        SumZero(s.threads, HeldFn(n));
      }
      assert InvWith(s, g);
    } else {
      var before := actions[..|actions| - 1];
      RunInvariant(s, before);
      var g :| InvWith(Run(s, before), g);
      var last := actions[|actions| - 1];
      var g' := StepKeeps(Run(s, before), g, last.thread, last.call);
    }
  }

  // ---------------------------------------------------------------------------
  // What the free list promises

  /** `list` is what one reads by following `freeListNext` from the head to null. */
  ghost predicate IsList(s: State, list: seq<Node>)
  {
    && s.head == (if |list| == 0 then Null else To(list[0]))
    && (forall i :: 0 <= i < |list| ==> list[i] < |s.next| && s.next[list[i]] == Successor(list, i))
    && (forall i, j :: 0 <= i < j < |list| ==> list[i] != list[j])
  }

  ghost function Linkers(s: State, n: Node): set<nat>
  {
    set t | 0 <= t < |s.threads| && Links(s.threads[t]) && s.threads[t].node == n
  }

  ghost function Takers(s: State, n: Node): set<nat>
  {
    set t | 0 <= t < |s.threads| && s.threads[t] == GetTake(n)
  }

  /** Flagged, nobody is linking it, and some thread still holds a reference: the last
      of them to drop it will link it. */
  ghost predicate AwaitsLink(s: State, n: Node)
    requires n < |s.refs|
  {
    s.refs[n] >= SHOULD_BE_ON_FREELIST && Linkers(s, n) == {} && Held(s.threads, n) > 0
  }

  ghost function Bit(b: bool): nat { if b then 1 else 0 }

  /** How many places node `n` is in. */
  ghost function Places(s: State, list: seq<Node>, n: Node): nat
    requires n < |s.refs|
  {
    s.owned[n] + Bit(n in list) + |Linkers(s, n)| + |Takers(s, n)| + Bit(AwaitsLink(s, n))
  }

  /** In every run, every node is in exactly one place: with one caller, once on an
      acyclic list, in the hands of one linking or one taking thread, or flagged under
      a reference. In particular no node is ever handed to two owners. */
  lemma NodeInOnePlace(s0: State, actions: seq<Action>) returns (list: seq<Node>)
    requires Init(s0)
    ensures var s := Run(s0, actions);
            && IsList(s, list)
            && forall n :: 0 <= n < |s.refs| ==> Places(s, list, n) == 1
  {
    RunInvariant(s0, actions);
    var s := Run(s0, actions);
    var g :| InvWith(s, g);
    list := g.list;
    forall n | 0 <= n < |s.refs| ensures Places(s, list, n) == 1 {
      PlacesOf(s, g, n);
    }
  }

  lemma PlacesOf(s: State, g: Ghost, n: Node)
    requires InvWith(s, g) && n < |s.refs|
    ensures Linkers(s, n) == (if g.place[n].Linking? then {g.place[n].t} else {})
    ensures Takers(s, n) == (if g.place[n].Taking? then {g.place[n].t} else {})
    ensures AwaitsLink(s, n) <==> g.place[n].Pending?
    ensures s.owned[n] == Bit(g.place[n].Owned?)
    ensures n in g.list <==> g.place[n].Listed?
  {
    assert PlaceOk(s, g, n);
    RefBitsAreCount(s, g, n);
    forall t | t in Linkers(s, n) ensures g.place[n] == Linking(t) { assert ThreadOk(s, g, t); }
    forall t | t in Takers(s, n) ensures g.place[n] == Taking(t) { assert ThreadOk(s, g, t); }
  }

  /** With no operation in flight every node is owned or on the list exactly once, and
      its word says which. */
  lemma Quiescent(s0: State, actions: seq<Action>) returns (list: seq<Node>)
    requires Init(s0)
    requires forall t :: 0 <= t < |Run(s0, actions).threads| ==> Run(s0, actions).threads[t].Idle?
    ensures var s := Run(s0, actions);
            && IsList(s, list)
            && forall n :: 0 <= n < |s.refs| ==>
                 && s.owned[n] == (if n in list then 0 else 1)
                 && s.refs[n] == (if n in list then 1 else 0)
  {
    RunInvariant(s0, actions);
    var s := Run(s0, actions);
    var g :| InvWith(s, g);
    list := g.list;
    forall n | 0 <= n < |s.refs|
      ensures s.owned[n] == (if n in list then 0 else 1) && s.refs[n] == (if n in list then 1 else 0)
    {
      assert PlaceOk(s, g, n);
      SumZero(s.threads, HeldFn(n));
    }
  }

  ghost predicate HoldsNode(s: State, t: nat, n: Node)
  {
    t < |s.threads| && Holds(s.threads[t]) && s.threads[t].node == n
  }

  lemma StepFreezesNext(s: State, g: Ghost, t: nat, n: Node, a: Action)
    requires InvWith(s, g) && HoldsNode(s, t, n) && n < |s.next|
    ensures Step(s, a.thread, a.call).next[n] == s.next[n]
  {
    if a.thread < |s.threads| && s.threads[a.thread].LinkNext? && s.threads[a.thread].node == n {
      assert ThreadOk(s, g, a.thread) && PlaceOk(s, g, n);
      HeldAtLeast(s.threads, t, n);
      assert false;
    }
  }

  /** ABA freedom: as long as a thread holds a reference on a node, whatever all other
      threads do, the node's freeListNext does not change. */
  lemma {:induction false} ReferenceFreezesNext(s0: State, before: seq<Action>, during: seq<Action>, t: nat, n: Node)
    requires Init(s0) && n < |s0.next|
    requires forall k :: 0 <= k <= |during| ==> HoldsNode(Run(s0, before + during[..k]), t, n)
    ensures n < |Run(s0, before).next| == |Run(s0, before + during).next| == |s0.next|
    ensures Run(s0, before + during).next[n] == Run(s0, before).next[n]
  {
    SameSize(s0, before);
    SameSize(s0, before + during);
    if |during| == 0 {
      assert before + during == before;
    } else {
      var k := |during| - 1;
      var a := during[k];
      assert forall j :: 0 <= j <= k ==> during[..k][..j] == during[..j];
      ReferenceFreezesNext(s0, before, during[..k], t, n);
      assert (before + during)[..|before + during| - 1] == before + during[..k];
      RunInvariant(s0, before + during[..k]);
      var s := Run(s0, before + during[..k]);
      var g :| InvWith(s, g);
      StepFreezesNext(s, g, t, n, a);
    }
  }

  lemma {:induction false} SameSize(s0: State, actions: seq<Action>)
    requires |s0.refs| == |s0.next|
    ensures |Run(s0, actions).next| == |s0.next| && |Run(s0, actions).threads| == |s0.threads|
  {
    if |actions| > 0 { SameSize(s0, actions[..|actions| - 1]); }
  }

  /** A successful head CAS in try_get removes the first node of the list and installs
      its true successor. */
  lemma TakeInstallsSuccessor(s0: State, actions: seq<Action>, t: nat, call: Call) returns (rest: seq<Node>)
    requires Init(s0)
    requires var s := Run(s0, actions);
             t < |s.threads| && s.threads[t].GetCas? && s.head == To(s.threads[t].node)
    ensures var s := Run(s0, actions);
            IsList(s, [s.threads[t].node] + rest) && IsList(Step(s, t, call), rest)
  {
    RunInvariant(s0, actions);
    var s := Run(s0, actions);
    var g :| InvWith(s, g);
    var g' := StepGetCas(s, g, t);
    rest := g'.list;
    assert g.list == [s.threads[t].node] + rest;
  }

  /** The assertion in try_get: a node just unlinked never has its flag bit set, and
      carries at least the two references about to be dropped. */
  lemma TakenNodeIsNotFlagged(s0: State, actions: seq<Action>, t: nat)
    requires Init(s0)
    requires t < |Run(s0, actions).threads| && Run(s0, actions).threads[t].GetTake?
    ensures var s := Run(s0, actions);
            s.threads[t].node < |s.refs| && 2 <= s.refs[s.threads[t].node] < SHOULD_BE_ON_FREELIST
  {
    RunInvariant(s0, actions);
    var s := Run(s0, actions);
    var g :| InvWith(s, g);
    var n := s.threads[t].node;
    assert ThreadOk(s, g, t) && PlaceOk(s, g, n);
    HeldAtLeast(s.threads, t, n);
  }

  // ---------------------------------------------------------------------------
  // The outcome of a call

  /** `actions` take thread t from s through one whole `try_get`, with steps of the others in
      between: it begins with the first of them and is over with the last. */
  ghost predicate IsGet(s: State, actions: seq<Action>, t: nat)
    requires |s.refs| == |s.next|
  {
    && GetBegun(s, actions, t) && |Run(s, actions).threads| == |s.threads| && Run(s, actions).threads[t].Idle?
    && (forall k :: 0 < k < |actions| ==> Under(s, actions[..k], t))
  }

  ghost predicate GetBegun(s: State, actions: seq<Action>, t: nat)
  {
    t < |s.threads| && s.threads[t].Idle? && |actions| > 0 && actions[0] == Action(t, TryGet)
  }

  ghost predicate Under(s: State, actions: seq<Action>, t: nat)
    requires |s.refs| == |s.next|
  {
    t < |Run(s, actions).threads| && !Run(s, actions).threads[t].Idle?
  }

  /** The list was empty at an instant between the first and the last step. */
  ghost predicate SawEmpty(s: State, actions: seq<Action>)
    requires |s.refs| == |s.next|
  {
    exists k :: 0 < k < |actions| && Run(s, actions[..k]).head == Null
  }

  lemma SawMore(s: State, actions: seq<Action>)
    requires |s.refs| == |s.next| && |actions| > 1
    ensures var before := actions[..|actions| - 1];
            SawEmpty(s, before) || Run(s, before).head == Null ==> SawEmpty(s, actions)
  {
    var n := |actions| - 1;
    forall k | 0 < k <= n ensures actions[..n][..k] == actions[..k] {}
  }

  /** The program points of `try_get`; a head already seen is null only if the list was empty. */
  ghost predicate InGet(pc: PC, empty: bool)
  {
    && !pc.Idle?
    && (Links(pc) ==> pc.ret.ToGet? && (pc.ret.seen == Null ==> empty))
    && (pc.GetDrop? && pc.seen == Null ==> empty)
  }

  /** One more step: on to the next program point, or out with a node, or with null. */
  lemma GetStep(s: State, t: nat, a: Action, empty: bool)
    requires |s.refs| == |s.next| && t < |s.threads| && InGet(s.threads[t], empty)
    ensures var s' := Step(s, a.thread, a.call);
            if !s'.threads[t].Idle? then InGet(s'.threads[t], empty || s.head == Null)
            else if s.threads[t].GetTake? then s.threads[t].node < |s.refs| && s'.owned == s.owned + multiset{s.threads[t].node}
            else s'.owned == s.owned && (empty || s.head == Null)
  {
    if a.thread == t {
      if Links(s.threads[t]) { GetLinks(s, t, a.call, empty); }
    } else {
      OtherStays(s, t, a);
    }
  }

  lemma OtherStays(s: State, t: nat, a: Action)
    requires |s.refs| == |s.next| && t < |s.threads| && a.thread != t
    ensures Step(s, a.thread, a.call).threads[t] == s.threads[t]
  {
  }

  lemma GetLinks(s: State, t: nat, call: Call, empty: bool)
    requires |s.refs| == |s.next| && t < |s.threads| && InGet(s.threads[t], empty) && Links(s.threads[t])
    ensures var s' := Step(s, t, call);
            s'.owned == s.owned && if s'.threads[t].Idle? then empty else InGet(s'.threads[t], empty)
  {
  }

  /** A call takes more than one step. */
  lemma FirstStep(s: State, actions: seq<Action>, t: nat)
    requires |s.refs| == |s.next| && GetBegun(s, actions, t)
    ensures |actions| == 1 ==> Under(s, actions, t)
  {
    if |actions| == 1 { assert Run(s, actions[..0]) == s; }
  }

  lemma {:induction false} GetSoFar(s: State, actions: seq<Action>, t: nat)
    requires |s.refs| == |s.next| && GetBegun(s, actions, t)
    requires forall k :: 0 < k <= |actions| ==> Under(s, actions[..k], t)
    ensures t < |Run(s, actions).threads| && InGet(Run(s, actions).threads[t], SawEmpty(s, actions))
  {
    var n := |actions| - 1;
    assert actions[..|actions|] == actions;
    if n == 0 {
      assert Run(s, actions[..0]) == s;
    } else {
      forall k | 0 < k <= n ensures Under(s, actions[..n][..k], t) { assert actions[..n][..k] == actions[..k]; }
      GetSoFar(s, actions[..n], t);
      GetStep(Run(s, actions[..n]), t, actions[n], SawEmpty(s, actions[..n]));
      SawMore(s, actions);
    }
  }

  /** In every run, whatever the others do: a `try_get` ends with a node that had no owner and
      now has one, or it ends without a node, and then the list was empty at an instant of
      the call. */
  lemma GetOutcome(s0: State, before: seq<Action>, actions: seq<Action>, t: nat)
    requires Init(s0) && IsGet(Run(s0, before), actions, t)
    ensures var s := Run(s0, before);
            var last, end := Run(s, actions[..|actions| - 1]), Run(s, actions);
            || (exists n: Node :: n < |last.refs| && last.owned[n] == 0 && end.owned == last.owned + multiset{n})
            || (end.owned == last.owned && SawEmpty(s, actions))
  {
    var s, n := Run(s0, before), |actions| - 1;
    FirstStep(s, actions, t);
    assert actions[..n][..n] == actions[..n];
    forall k | 0 < k <= n ensures Under(s, actions[..n][..k], t) { assert actions[..n][..k] == actions[..k]; }
    GetSoFar(s, actions[..n], t);
    var last := Run(s, actions[..n]);
    GetStep(last, t, actions[n], SawEmpty(s, actions[..n]));
    SawMore(s, actions);
    if last.threads[t].GetTake? {
      RunJoins(s0, before, actions[..n]);
      RunInvariant(s0, before + actions[..n]);
      var g :| InvWith(last, g);
      assert ThreadOk(last, g, t) && PlaceOk(last, g, last.threads[t].node);
    }
  }

  lemma {:induction false} RunJoins(s: State, first: seq<Action>, more: seq<Action>)
    requires |s.refs| == |s.next|
    ensures Run(s, first + more) == Run(Run(s, first), more)
  {
    if |more| == 0 {
      assert first + more == first;
    } else {
      var n := |more| - 1;
      assert (first + more)[..|first + more| - 1] == first + more[..n];
      RunJoins(s, first, more[..n]);
    }
  }

  /** Thread t alone makes n steps. */
  ghost function Alone(s: State, t: nat, call: Call, n: nat): (s': State)
    requires |s.refs| == |s.next|
    ensures |s'.refs| == |s'.next| == |s.refs| && |s'.threads| == |s.threads|
    decreases n
  {
    if n == 0 then s else Alone(Step(s, t, call), t, call, n - 1)
  }

  predicate AllIdle(s: State) { forall t :: 0 <= t < |s.threads| ==> s.threads[t].Idle? }

  /** With no other operation in flight, `try_get` takes the first node and leaves the rest of
      the list; if the list is empty it returns null and changes nothing. */
  lemma GetAlone(s0: State, actions: seq<Action>, t: nat, list: seq<Node>)
    requires Init(s0) && AllIdle(Run(s0, actions)) && t < |Run(s0, actions).threads| && IsList(Run(s0, actions), list)
    ensures var s := Run(s0, actions);
            if list == [] then Alone(s, t, TryGet, 2) == s
            else
              var s' := Alone(s, t, TryGet, 7);
              IsList(s', list[1..]) && s'.owned == s.owned + multiset{list[0]} && AllIdle(s')
  {
    var s := Run(s0, actions);
    var found := Quiescent(s0, actions);
    var s1 := Goto(s, t, GetHead);
    assert Alone(s, t, TryGet, 2) == Alone(s1, t, TryGet, 1) == Step(s1, t, TryGet);
    if list == [] {
      assert s1.threads[t := Idle] == s.threads;
    } else {
      OneList(s, list, found);
      TakeAlone(s, t, list);
    }
  }

  /** The steps of a `try_get` that nobody disturbs. */
  lemma GetGoesOn(s: State, t: nat, n: Node, k: nat) returns (s': State)
    requires |s.refs| == |s.next| && t < |s.threads| && n < |s.refs| && k > 0 && s.head == To(n)
    requires s.threads[t].Idle? || s.threads[t].GetHead? || s.threads[t] == GetRefs(n)
    requires s.refs[n] == 1
    ensures s' == s.(threads := s.threads[t := if s.threads[t].Idle? then GetHead else if s.threads[t].GetHead? then GetRefs(n) else GetInc(n, 1)])
    ensures Alone(s, t, TryGet, k) == Alone(s', t, TryGet, k - 1)
  {
    s' := Step(s, t, TryGet);
  }

  lemma TakeSteps(s: State, t: nat, n: Node)
    requires |s.refs| == |s.next| && t < |s.threads| && s.threads[t].Idle? && s.head == To(n) && n < |s.refs| && s.refs[n] == 1
    ensures var s' := Alone(s, t, TryGet, 7);
            s'.head == s.next[n] && s'.next == s.next && s'.owned == s.owned + multiset{n} && s'.threads == s.threads[t := Idle]
  {
    var s1 := GetGoesOn(s, t, n, 7);
    var s2 := GetGoesOn(s1, t, n, 6);
    var s3 := GetGoesOn(s2, t, n, 5);
    var s4 := Step(s3, t, TryGet);
    assert s4 == s3.(refs := s3.refs[n := 2], threads := s3.threads[t := GetNext(n)]);
    TakeEnds(s4, t, n);
  }

  lemma TakeEnds(s: State, t: nat, n: Node)
    requires |s.refs| == |s.next| && t < |s.threads| && s.threads[t] == GetNext(n) && s.head == To(n) && n < |s.refs|
    ensures var s' := Alone(s, t, TryGet, 3);
            s'.head == s.next[n] && s'.next == s.next && s'.owned == s.owned + multiset{n} && s'.threads == s.threads[t := Idle]
  {
    var s1 := Step(s, t, TryGet);
    assert s1 == Goto(s, t, GetCas(n, s.next[n]));
    var s2 := Step(s1, t, TryGet);
    assert s2 == Goto(s1.(head := s.next[n]), t, GetTake(n));
    var s3 := Step(s2, t, TryGet);
    assert Alone(s, t, TryGet, 3) == Alone(s1, t, TryGet, 2) == Alone(s2, t, TryGet, 1) == s3;
  }

  lemma TakeAlone(s: State, t: nat, list: seq<Node>)
    requires |s.refs| == |s.next| && AllIdle(s) && t < |s.threads| && IsList(s, list) && |list| > 0 && s.refs[list[0]] == 1
    ensures var s' := Alone(s, t, TryGet, 7);
            IsList(s', list[1..]) && s'.owned == s.owned + multiset{list[0]} && AllIdle(s')
  {
    TakeSteps(s, t, list[0]);
    var s', rest := Alone(s, t, TryGet, 7), list[1..];
    forall i | 0 <= i < |rest| ensures rest[i] < |s'.next| && s'.next[rest[i]] == Successor(rest, i) {
      assert rest[i] == list[i + 1];
    }
  }

  /** With no other operation in flight, `add` puts the node at the front of the list. */
  lemma AddAlone(s0: State, actions: seq<Action>, t: nat, n: Node, list: seq<Node>)
    requires Init(s0) && AllIdle(Run(s0, actions)) && t < |Run(s0, actions).threads| && IsList(Run(s0, actions), list)
    requires n < |Run(s0, actions).refs| && Run(s0, actions).owned[n] > 0
    ensures var s := Run(s0, actions);
            var s' := Alone(s, t, Add(n), 5);
            IsList(s', [n] + list) && s'.owned == s.owned - multiset{n} && AllIdle(s')
  {
    var s := Run(s0, actions);
    var found := Quiescent(s0, actions);
    assert s.refs[n] == 0 && n !in found;
    OneList(s, list, found);
    LinkAlone(s, t, n, list);
  }

  ghost predicate LinkAt(s: State, list: seq<Node>, i: nat)
  {
    i < |list| && list[i] < |s.next| && s.next[list[i]] == Successor(list, i)
  }

  lemma {:induction false} SamePrefix(s: State, a: seq<Node>, b: seq<Node>, k: nat)
    requires forall i :: 0 <= i < |a| ==> LinkAt(s, a, i)
    requires forall i :: 0 <= i < |b| ==> LinkAt(s, b, i)
    requires k <= |a| && (if |a| == 0 then Null else To(a[0])) == (if |b| == 0 then Null else To(b[0]))
    ensures k <= |b| && a[..k] == b[..k]
  {
    if k > 1 {
      SamePrefix(s, a, b, k - 1);
      assert a[k - 2] == a[..k - 1][k - 2] == b[..k - 1][k - 2] == b[k - 2];
      assert LinkAt(s, a, k - 2) && LinkAt(s, b, k - 2);
    }
  }

  ghost predicate Chain(s: State, list: seq<Node>)
  {
    s.head == (if |list| == 0 then Null else To(list[0])) && forall i :: 0 <= i < |list| ==> LinkAt(s, list, i)
  }

  lemma ListIsChain(s: State, list: seq<Node>)
    requires IsList(s, list)
    ensures Chain(s, list)
  {
    forall i | 0 <= i < |list| ensures LinkAt(s, list, i) {}
  }

  lemma OneChain(s: State, a: seq<Node>, b: seq<Node>)
    requires Chain(s, a) && Chain(s, b)
    ensures a == b
  {
    SamePrefix(s, a, b, |a|);
    SamePrefix(s, b, a, |b|);
  }

  /** The list is determined by the words. */
  lemma OneList(s: State, a: seq<Node>, b: seq<Node>)
    requires IsList(s, a) && IsList(s, b)
    ensures a == b
  {
    ListIsChain(s, a);
    ListIsChain(s, b);
    OneChain(s, a, b);
  }

  /** The steps of an `add` that nobody disturbs. */
  lemma LinkSteps(s: State, t: nat, n: Node)
    requires |s.refs| == |s.next| && t < |s.threads| && s.threads[t].Idle? && n < |s.refs| && s.refs[n] == 0 && s.owned[n] > 0
    ensures var s' := Alone(s, t, Add(n), 5);
            && s'.head == To(n) && s'.next == s.next[n := s.head] && s'.owned == s.owned - multiset{n}
            && s'.threads == s.threads[t := Idle]
  {
    var s1 := Step(s, t, Add(n));
    assert s1.threads[t] == LinkLoad(n, ToAdd);
    var s2 := Goto(s1, t, LinkNext(n, s.head, ToAdd));
    assert Step(s1, t, Add(n)) == s2;
    var s3 := Goto(s2.(next := s2.next[n := s.head]), t, LinkRefs(n, s.head, ToAdd));
    assert Step(s2, t, Add(n)) == s3;
    var s4 := Goto(s3.(refs := s3.refs[n := 1]), t, LinkCas(n, s.head, ToAdd));
    assert Step(s3, t, Add(n)) == s4;
    assert Alone(s1, t, Add(n), 4) == Alone(s2, t, Add(n), 3) == Alone(s3, t, Add(n), 2) == Alone(s4, t, Add(n), 1) == Step(s4, t, Add(n));
  }

  lemma LinkAlone(s: State, t: nat, n: Node, list: seq<Node>)
    requires |s.refs| == |s.next| && AllIdle(s) && t < |s.threads| && IsList(s, list) && n !in list
    requires n < |s.refs| && s.refs[n] == 0 && s.owned[n] > 0
    ensures var s' := Alone(s, t, Add(n), 5);
            IsList(s', [n] + list) && s'.owned == s.owned - multiset{n} && AllIdle(s')
  {
    LinkSteps(s, t, n);
    var s', more := Alone(s, t, Add(n), 5), [n] + list;
    forall i | 0 <= i < |more| ensures more[i] < |s'.next| && s'.next[more[i]] == Successor(more, i) {
      if i > 0 { assert more[i] == list[i - 1]; }
    }
  }
}
