/** The sub-queue model takes two things for granted: that a consumer's claim is one step that
    takes a range below the tail index, and that a block requisitioned from the pool is one
    that nobody has. Both are what the ticket counters and the free list do, step by step. */
module Composition {
  import opened Options
  import opened ImplicitQueue
  import Tickets
  import FreeList

  /** The sub-queue and the counters have the same head and tail. */
  predicate SameIndices(s: Tickets.State, q: State) { q.headIndex == s.head && q.tailIndex == s.tail }

  /** In every run of single and bulk dequeues, the step that adds to headIndex is a claim that
      the sub-queue accepts, of exactly the range recorded for the consumer; no other step of a
      consumer changes head or tail. */
  lemma TicketsMakeClaims(s0: Tickets.State, actions: seq<Tickets.Action>, t: nat, i: Tickets.Input, q: State, c: nat)
    requires Tickets.Init(s0) && t < |s0.threads| == |Tickets.Run(s0, actions).threads| && SameIndices(Tickets.Run(s0, actions), q)
    requires c < |q.consumers| && q.consumers[c].pc.CIdle?
    ensures var s := Tickets.Run(s0, actions);
            var s' := Tickets.Step(s, t, i);
            if s.threads[t].TakeHead? then
              var n := s.threads[t].got;
              && n > 0 && s.head + n <= s.tail && SameIndices(s', ClaimStep(q, c, n))
              && (var x := ClaimStep(q, c, n).consumers[c];
                  x.pc.LoadHeader? && s'.claims == s.claims + [Tickets.Claim(x.first, x.end - x.first)])
            else SameIndices(s', q)
  {
    if Tickets.Run(s0, actions).threads[t].TakeHead? { TakeHeadFits(s0, actions, t, i); }
  }

  /** The range about to be claimed is not empty and ends at or below the tail. */
  lemma TakeHeadFits(s0: Tickets.State, actions: seq<Tickets.Action>, t: nat, i: Tickets.Input)
    requires Tickets.Init(s0) && t < |Tickets.Run(s0, actions).threads| && Tickets.Run(s0, actions).threads[t].TakeHead?
    ensures var s := Tickets.Run(s0, actions); s.threads[t].got > 0 && s.head + s.threads[t].got <= s.tail
  {
    var s := Tickets.Run(s0, actions);
    var more := actions + [Tickets.Action(t, i)];
    assert more[..|more| - 1] == actions;
    Tickets.ClaimsDisjointBelowTail(s0, more);
    var s' := Tickets.Run(s0, more);
    assert s' == Tickets.Step(s, t, i);
    assert s'.claims[|s.claims|].count == s.threads[t].got;
  }

  /** The pool is what no caller of the free list owns. */
  predicate SamePool(s: FreeList.State, q: State)
  {
    |q.holder| == |s.refs| && forall k :: 0 <= k < |q.holder| ==> (q.holder[k].Pool? <==> s.owned[k] == 0)
  }

  /** In every run of `add` and `try_get`: a successful try_get returns a block of the pool, one
      that the sub-queue may take, and it then is in nobody else's hands; a call of `add` by the
      block's owner puts it into the pool, before it is even linked; no other step changes what
      is in the pool. */
  lemma FreeListMakesPool(s0: FreeList.State, actions: seq<FreeList.Action>, t: nat, call: FreeList.Call, q: State)
    requires FreeList.Init(s0) && SamePool(FreeList.Run(s0, actions), q) && |q.blocks| == |q.holder|
    requires t < |FreeList.Run(s0, actions).threads| && q.producer.TakeBlock?
    ensures var s := FreeList.Run(s0, actions);
            var s', pc := FreeList.Step(s, t, call), s.threads[t];
            if pc.GetTake? then
              pc.node < |q.holder| && q.holder[pc.node].Pool? && SamePool(s', TakeBlockStep(q, Some(pc.node)))
            else if pc.Idle? && call.Add? && call.node < |s.refs| && s.owned[call.node] > 0 then
              !q.holder[call.node].Pool? && SamePool(s', q.(holder := q.holder[call.node := Pool]))
            else SamePool(s', q)
  {
    FreeList.RunInvariant(s0, actions);
    var s := FreeList.Run(s0, actions);
    var g :| FreeList.InvWith(s, g);
    OwnedMoves(s, g, t, call);
  }

  /** What a step does to the bag of owned nodes. */
  lemma OwnedMoves(s: FreeList.State, g: FreeList.Ghost, t: nat, call: FreeList.Call)
    requires FreeList.InvWith(s, g) && t < |s.threads|
    ensures var s', pc := FreeList.Step(s, t, call), s.threads[t];
            if pc.GetTake? then pc.node < |s.refs| && s.owned[pc.node] == 0 && s'.owned == s.owned + multiset{pc.node}
            else if pc.Idle? && call.Add? && call.node < |s.refs| && s.owned[call.node] > 0 then
              s.owned[call.node] == 1 && s'.owned == s.owned - multiset{call.node}
            else s'.owned == s.owned
  {
    assert FreeList.ThreadOk(s, g, t);
    var pc := s.threads[t];
    if pc.GetTake? { assert FreeList.PlaceOk(s, g, pc.node); }
    else if pc.Idle? && call.Add? && call.node < |s.refs| { assert FreeList.PlaceOk(s, g, call.node); }
  }
}
