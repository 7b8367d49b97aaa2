/** One call of enqueue_bulk from its beginning to its end, with any interleaving of other
    threads' steps in between: all or nothing. */
module ImplicitCalls {
  import opened Options
  import opened BlockIndex
  import opened ImplicitQueue
  import opened ImplicitConsumers
  import opened ImplicitProducers
  import opened ImplicitRuns

  // ---------------------------------------------------------------------------
  // What a call has changed so far

  /** Nothing is visible yet of the call with `items` that began in state s. */
  ghost predicate Unchanged(s: State, items: seq<Value>, t: State)
  {
    && !t.producer.Idle? && t.producer.op.items == items && t.producer.op.startBlock == s.tailBlock
    && t.log == s.log && t.input == s.input && t.tailIndex == s.tailIndex
  }

  ghost predicate Succeeded(s: State, items: seq<Value>, t: State)
  {
    t.log == s.log + [Done(items, true)] && t.input == s.input + items && t.tailIndex == s.tailIndex + |items|
  }

  ghost predicate Failed(s: State, items: seq<Value>, t: State)
  {
    && t.log == s.log + [Done(items, false)] && t.input == s.input && t.tailIndex == s.tailIndex
    && t.tailBlock == s.tailBlock
  }

  /** Under way, or done with one of the two outcomes. */
  ghost predicate Progress(s: State, items: seq<Value>, t: State)
  {
    Unchanged(s, items, t) || (t.producer.Idle? && (Succeeded(s, items, t) || Failed(s, items, t)))
  }

  /** Other threads leave the producer's fields and the histories of enqueuing alone. */
  lemma OthersLeave(t: State, a: Action)
    requires !a.Produce?
    ensures var t' := Step(t, a);
            && t'.producer == t.producer && t'.log == t.log && t'.input == t.input
            && t'.tailIndex == t.tailIndex && t'.tailBlock == t.tailBlock
  {
    if a.Consume? && a.c < |t.consumers| && ConsumerSafe(t, a.c) {
      match t.consumers[a.c].pc
      case LoadKey =>
      case Move =>
      case _ =>
    }
  }

  /** Where the producer's own steps lead. */
  lemma ProducerProgress(s: State, items: seq<Value>, t: State, a: Action)
    requires Unchanged(s, items, t) && a.Produce? && ProducerSafe(t)
    ensures Progress(s, items, Step(t, a))
  {
    match t.producer
    case Scan(_, _) =>
    case StoreValue(_, _, _) =>
    case Fill(_, _, _) =>
    case UndoEntry(_, _, _) =>
    case _ =>
  }

  // ---------------------------------------------------------------------------
  // A call over a run

  /** The state before the call and a state during or right after it, with their witnesses. */
  ghost predicate Related(s: State, g: Ghost, items: seq<Value>, t: State, h: Ghost)
  {
    && InvWith(t, h) && Carries(g, h, Blocks(s.tailIndex)) && Progress(s, items, t)
  }

  lemma StepRelated(s: State, g: Ghost, items: seq<Value>, t: State, h: Ghost, a: Action) returns (h': Ghost)
    requires Related(s, g, items, t, h) && !t.producer.Idle?
    ensures Related(s, g, items, Step(t, a), h')
  {
    h' := StepKeeps(t, h, a);
    CarriesOn(g, h, h', Blocks(s.tailIndex));
    if a.Produce? {
      SafeNow(t, h);
      ProducerProgress(s, items, t, a);
    } else {
      OthersLeave(t, a);
    }
  }

  lemma CarriesOn(g: Ghost, h: Ghost, h': Ghost, n: nat)
    requires Carries(g, h, n) && Carries(h, h', n)
    ensures Carries(g, h', n)
  {
    forall b | 0 <= b < n && b < |g.info| ensures CarriesAt(g, h', b) { assert CarriesAt(g, h, b) && CarriesAt(h, h', b); }
  }

  lemma SafeNow(t: State, h: Ghost)
    requires InvWith(t, h)
    ensures ProducerSafe(t)
  {
    var a := Produce([], None, None);
    if t.producer.Idle? || IsAllocating(t.producer) { var _ := InsertingKeeps(t, h, a); } else { var _ := FinishingKeeps(t, h, a); }
  }

  /** The first step of the call. */
  lemma BeginRelated(s: State, g: Ghost, a: Action) returns (h: Ghost)
    requires InvWith(s, g) && s.producer.Idle? && a.Produce?
    ensures Related(s, g, a.items, Step(s, a), h)
  {
    h := StepKeeps(s, g, a);
  }

  /** The call is not over before any of these steps. */
  ghost predicate Ongoing(t: State, actions: seq<Action>)
    decreases |actions|
  {
    |actions| > 0 ==>
      var n := |actions| - 1; Ongoing(t, actions[..n]) && !Run(t, actions[..n]).producer.Idle?
  }

  lemma {:induction false} RunRelated(s: State, g: Ghost, items: seq<Value>, t: State, h: Ghost, actions: seq<Action>) returns (h': Ghost)
    requires Related(s, g, items, t, h) && Ongoing(t, actions)
    ensures Related(s, g, items, Run(t, actions), h')
    decreases |actions|
  {
    if |actions| == 0 {
      h' := h;
    } else {
      var n := |actions| - 1;
      h' := RunRelated(s, g, items, t, h, actions[..n]);
      h' := StepRelated(s, g, items, Run(t, actions[..n]), h', actions[n]);
    }
  }

  // ---------------------------------------------------------------------------
  // All or nothing

  /** A consumer has completed block number b and is about to put it on the free list. */
  ghost predicate BeingReleased(t: State, b: nat)
  {
    exists c :: 0 <= c < |t.consumers| && t.consumers[c].pc.Release? && LastBlock(t.consumers[c]) == b
  }

  /** A number enqueued before the call and not released is found with the same block. */
  lemma StillFound(s: State, g: Ghost, t: State, h: Ghost, b: nat) returns (k: nat)
    requires InvWith(s, g) && InvWith(t, h) && Carries(g, h, Blocks(s.tailIndex)) && s.tailIndex <= t.tailIndex
    requires b < Blocks(s.tailIndex) && t.released[b] == 0 && !BeingReleased(t, b)
    ensures Found(s, b, k) && Found(t, b, k)
  {
    CommittedInserted(s, g);
    assert CarriesAt(g, h, b);
    k := g.info[b].blk;
    UnreleasedInUse(t, h, b);
    FoundNow(s, g, b);
    FoundNow(t, h, b);
  }

  lemma UnreleasedInUse(t: State, h: Ghost, b: nat)
    requires InvWith(t, h) && b < |h.info| && b < Blocks(t.tailIndex) && t.released[b] == 0 && !BeingReleased(t, b)
    ensures Occupies(h.info[b].stage)
  {
    assert Use(TheReleases, true) && Use(TheStages, true);
    assert StageOk(h.info[b].stage, b, t.consumers);
  }

  /** Every block held after a failed call was held before it. */
  lemma NoBlockKept(s: State, g: Ghost, t: State, h: Ghost, k: nat)
    requires InvWith(s, g) && InvWith(t, h) && Carries(g, h, Blocks(s.tailIndex)) && s.tailIndex == t.tailIndex
    requires t.producer.Idle? && k < |t.holder| && t.holder[k].Ours?
    ensures k < |s.holder| && s.holder[k].Ours?
  {
    var b := OurBlock(t, h, k);
    CommittedInserted(s, g);
    assert CarriesAt(g, h, b);
    HeldBlock(s, g, b);
  }

  /** enqueue_bulk is all or nothing, in every run. Take any reachable state with no call under
      way, let a call with some items begin, and let all threads go on in any order, with any
      allocation failing, until the call is over. Either it succeeded, and the contents, the
      tail index and the log have grown by exactly its items; or it failed, and they and
      tailBlock are as before, and every block held was held before. Either way every block
      number that has not been released meanwhile is found with the same block as before. */
  lemma BulkAllOrNothing(s: State, begin: Action, actions: seq<Action>)
    requires Reachable(s) && s.producer.Idle? && begin.Produce? && Ongoing(Step(s, begin), actions)
    requires Run(Step(s, begin), actions).producer.Idle?
    ensures var t := Run(Step(s, begin), actions);
            && (Succeeded(s, begin.items, t) || Failed(s, begin.items, t))
            && (Failed(s, begin.items, t) ==>
                  forall k :: 0 <= k < |t.holder| && t.holder[k].Ours? ==> k < |s.holder| && s.holder[k].Ours?)
            && (forall b: nat :: b < Blocks(s.tailIndex) && t.released[b] == 0 && !BeingReleased(t, b) ==>
                  exists k :: Found(s, b, k) && Found(t, b, k))
  {
    var t := Run(Step(s, begin), actions);
    var g := ReachableInvariant(s);
    var h := BeginRelated(s, g, begin);
    h := RunRelated(s, g, begin.items, Step(s, begin), h, actions);
    if Failed(s, begin.items, t) {
      forall k | 0 <= k < |t.holder| && t.holder[k].Ours? ensures k < |s.holder| && s.holder[k].Ours? { NoBlockKept(s, g, t, h, k); }
    }
    forall b: nat | b < Blocks(s.tailIndex) && t.released[b] == 0 && !BeingReleased(t, b)
      ensures exists k :: Found(s, b, k) && Found(t, b, k)
    {
      var k := StillFound(s, g, t, h, b);
    }
  }

  // ---------------------------------------------------------------------------
  // When a call fails

  /** A memory request of the call that is turned down: a larger index, which it needs because
      the slot after the tail is in use, or a block. */
  predicate Refused(t: State, a: Action)
  {
    && a.Produce?
    && (|| (t.producer.Scan? && IndexOk(t.ix) && t.ix.entries[Candidate(t.ix)].key.Some? && t.ix.entries[Candidate(t.ix)].value.Some?
            && (a.junk.None? || |a.junk.value| != |Cur(t.ix).index|))
        || (t.producer.TakeBlock?
            && (a.take.None? || a.take.value >= |t.blocks| || a.take.value >= |t.holder| || !t.holder[a.take.value].Pool?)))
  }

  /** One of the steps was such a refusal. */
  ghost predicate WasRefused(t: State, actions: seq<Action>)
    decreases |actions|
  {
    |actions| > 0
    && var n := |actions| - 1; WasRefused(t, actions[..n]) || Refused(Run(t, actions[..n]), actions[n])
  }

  /** Rolling back. */
  predicate Doomed(p: Producer) { p.Rewind? || p.ClearEntry? || p.UndoEntry? || p.UndoTail? || p.GiveBack? }

  /** The call rolls back if it has been refused memory, and only then. */
  ghost predicate DoomedIf(s: State, items: seq<Value>, t: State, refused: bool)
  {
    if t.producer.Idle? then Failed(s, items, t) <==> refused
    else Unchanged(s, items, t) && (Doomed(t.producer) <==> refused)
  }

  lemma RefusedDooms(s: State, items: seq<Value>, t: State, a: Action, refused: bool)
    requires DoomedIf(s, items, t, refused) && !t.producer.Idle? && ProducerSafe(t)
    ensures DoomedIf(s, items, Step(t, a), refused || Refused(t, a))
  {
    if a.Produce? {
      match t.producer
      case Scan(_, _) =>
      case TakeBlock(_, _) =>
      case StoreValue(_, _, _) =>
      case Fill(_, _, _) =>
      case UndoEntry(_, _, _) =>
      case GiveBack(_, _) =>
      case Commit(_) =>
        assert Step(t, a).log[|s.log|] == Done(items, true);
      case _ =>
    } else {
      OthersLeave(t, a);
    }
  }

  lemma {:induction false} DoomedIfRefused(s: State, g: Ghost, items: seq<Value>, t: State, h: Ghost, actions: seq<Action>)
    requires Related(s, g, items, t, h) && !t.producer.Idle? && !Doomed(t.producer) && Ongoing(t, actions)
    ensures DoomedIf(s, items, Run(t, actions), WasRefused(t, actions))
    decreases |actions|
  {
    if |actions| > 0 {
      var n := |actions| - 1;
      DoomedIfRefused(s, g, items, t, h, actions[..n]);
      var h1 := RunRelated(s, g, items, t, h, actions[..n]);
      SafeNow(Run(t, actions[..n]), h1);
      RefusedDooms(s, items, Run(t, actions[..n]), actions[n], WasRefused(t, actions[..n]));
    }
  }

  /** Over the same runs: a bulk enqueue fails if and only if a larger index that it needed, or a
      block, was refused to it on the way. If memory is granted whenever it asks, it succeeds. */
  lemma FailsOnlyIfRefused(s: State, begin: Action, actions: seq<Action>)
    requires Reachable(s) && s.producer.Idle? && begin.Produce? && Ongoing(Step(s, begin), actions)
    requires Run(Step(s, begin), actions).producer.Idle?
    ensures var t := Run(Step(s, begin), actions);
            && (Failed(s, begin.items, t) <==> WasRefused(Step(s, begin), actions))
            && (Succeeded(s, begin.items, t) <==> !WasRefused(Step(s, begin), actions))
  {
    var t := Run(Step(s, begin), actions);
    var g := ReachableInvariant(s);
    var h := BeginRelated(s, g, begin);
    DoomedIfRefused(s, g, begin.items, Step(s, begin), h, actions);
    BulkAllOrNothing(s, begin, actions);
    if Succeeded(s, begin.items, t) { assert t.log[|s.log|].ok; }
    if Failed(s, begin.items, t) { assert !t.log[|s.log|].ok; }
  }
}
