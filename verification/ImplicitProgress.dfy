/** Calls on the sub-queue come to an end: each of a thread's own steps brings its call nearer
    to the end, and steps of other threads do not put it off. */
module ImplicitProgress {
  import opened Counting
  import opened Options
  import opened Slots
  import opened BlockIndex
  import opened ImplicitQueue
  import opened ImplicitConsumers
  import opened ImplicitProducers
  import opened ImplicitRuns

  // ---------------------------------------------------------------------------
  // Consumers

  /** Steps that a consumer has still to make, at most. */
  function ConsumerLeft(x: Consumer): int
  {
    7 * (x.end - x.i) + match x.pc
                        case CIdle => 0
                        case LoadHeader => 4
                        case LoadTail => 3
                        case LoadKey => 2
                        case LoadValue => 1
                        case Move => if x.i > x.from then 5 else 0
                        case Mark => 4
                        case Unlink => 3
                        case Release => 2
  }

  lemma ReadingNearer(s: State, c: nat, n: nat)
    requires c < |s.consumers| && ConsumerSafe(s, c) && RangeOk(s.consumers[c], s.input, s.headIndex)
    requires var x := s.consumers[c]; x.pc.LoadHeader? || x.pc.LoadTail? || x.pc.LoadKey? || x.pc.LoadValue?
    requires s.consumers[c].i == s.consumers[c].from
    ensures var s' := ConsumerStep(s, c, n); c < |s'.consumers| && ConsumerLeft(s'.consumers[c]) < ConsumerLeft(s.consumers[c])
  {
  }

  lemma MovingNearer(s: State, c: nat, n: nat)
    requires c < |s.consumers| && ConsumerSafe(s, c) && RangeOk(s.consumers[c], s.input, s.headIndex)
    requires s.consumers[c].pc.Move? && s.consumers[c].from < s.consumers[c].end
    ensures var s' := ConsumerStep(s, c, n); c < |s'.consumers| && ConsumerLeft(s'.consumers[c]) < ConsumerLeft(s.consumers[c])
  {
  }

  lemma CompletingNearer(s: State, c: nat, n: nat)
    requires c < |s.consumers| && ConsumerSafe(s, c) && RangeOk(s.consumers[c], s.input, s.headIndex)
    requires s.consumers[c].pc.Mark? || s.consumers[c].pc.Unlink? || s.consumers[c].pc.Release?
    ensures var s' := ConsumerStep(s, c, n); c < |s'.consumers| && ConsumerLeft(s'.consumers[c]) < ConsumerLeft(s.consumers[c])
  {
  }

  /** A dequeue that has claimed n elements is over after at most 7 n + 4 more steps of its own,
      whatever the others do: each of them brings it nearer to the end, no other step changes
      anything about it, and at the end all its elements are moved out. */
  lemma ConsumerEnds(s: State, c: nat, a: Action)
    requires Reachable(s) && c < |s.consumers|
    ensures var x := s.consumers[c];
            var s' := Step(s, a);
            && 0 <= ConsumerLeft(x) <= 7 * (x.end - x.first) + 4
            && c < |s'.consumers|
            && (if a.Consume? && a.c == c then x.pc.CIdle? || ConsumerLeft(s'.consumers[c]) < ConsumerLeft(x) else s'.consumers[c] == x)
            && (x.pc.CIdle? ==> x.i == x.end)
  {
    var g := ReachableInvariant(s);
    ConsumerFacts(s, g, c);
    NeverFaults(s, c);
    var x := s.consumers[c];
    LeftBound(x, c, s.ix, g, s.input, s.headIndex);
    if a.Consume? && a.c == c {
      if x.pc.Move? { MovingNearer(s, c, a.n); }
      else if x.pc.Mark? || x.pc.Unlink? || x.pc.Release? { CompletingNearer(s, c, a.n); }
      else if !x.pc.CIdle? { ReadingNearer(s, c, a.n); }
    } else {
      OthersConsume(s, c, a);
    }
  }

  lemma LeftBound(x: Consumer, c: nat, ix: Index, g: Ghost, input: seq<Value>, head: nat)
    requires SlotsOk(ix, g) && PcOk(x, c, ix, g) && RangeOk(x, input, head)
    ensures 0 <= ConsumerLeft(x) <= 7 * (x.end - x.first) + 4
  {
  }

  lemma OthersConsume(s: State, c: nat, a: Action)
    requires c < |s.consumers| && !(a.Consume? && a.c == c)
    ensures c < |Step(s, a).consumers| && Step(s, a).consumers[c] == s.consumers[c]
  {
    match a
    case Produce(_, _, _) =>
      if ProducerSafe(s) { ProducerLeaves(s, a); }
    case Consume(d, n) =>
      if d < |s.consumers| && ConsumerSafe(s, d) { OtherConsumer(s, c, d, n); }
    case Others(_, _, _) =>
  }

  lemma ProducerLeaves(s: State, a: Action)
    requires a.Produce? && ProducerSafe(s)
    ensures ProducerStep(s, a.items, a.junk, a.take).consumers == s.consumers
  {
    match s.producer
    case UndoEntry(_, _, _) =>
    case StoreValue(_, _, _) =>
    case _ =>
  }

  lemma OtherConsumer(s: State, c: nat, d: nat, n: nat)
    requires c < |s.consumers| && d < |s.consumers| && d != c && ConsumerSafe(s, d)
    ensures c < |ConsumerStep(s, d, n).consumers| && ConsumerStep(s, d, n).consumers[c] == s.consumers[c]
  {
    match s.consumers[d].pc
    case LoadKey =>
    case Move =>
    case _ =>
  }

  // ---------------------------------------------------------------------------
  // The producer

  function IsOurs(h: Holder): nat { if h.Ours? then 1 else 0 }

  ghost function Ours(s: State): nat { Sum(s.holder, IsOurs) }

  /** Rolling back from block number b: two steps for each of the call's blocks, then one for
      each block to give back, which is one of ours. */
  ghost function UndoLeft(s: State, last: nat, b: nat): int { 2 * (last - b) + Ours(s) + 3 }

  /** Inserting blocks from number n: nine steps for each, then a step for each element and each
      block, or the rollback. */
  ghost function InsertLeft(s: State, op: Op, n: nat): int
  {
    var last := Blocks(s.tailIndex + |op.items|);
    9 * (last - n) + |op.items| + last + UndoLeft(s, last, Blocks(s.tailIndex)) + 9
  }

  /** Steps that the producer has still to make in its call, at most. */
  ghost function ProducerLeft(s: State): int
  {
    match s.producer
    case Idle => 0
    case Scan(op, n) => InsertLeft(s, op, n) + 6
    case Publish(op, n, _) => InsertLeft(s, op, n) + 5
    case StoreKey(op, n) => InsertLeft(s, op, n) + 4
    case StoreTail(op, n) => InsertLeft(s, op, n) + 3
    case TakeBlock(op, n) => InsertLeft(s, op, n) + 2
    case StoreValue(op, n, _) => InsertLeft(s, op, n)
    case Fill(op, b, i) => 3 + (s.tailIndex + |op.items| - i) + (Blocks(s.tailIndex + |op.items|) + 1 - b)
    case Commit(op) => 1
    case Rewind(op, n) => UndoLeft(s, Blocks(s.tailIndex + |op.items|), Blocks(s.tailIndex)) + 2
    case ClearEntry(op, n, _) => UndoLeft(s, Blocks(s.tailIndex + |op.items|), Blocks(s.tailIndex)) + 1
    case UndoEntry(op, b, _) => UndoLeft(s, Blocks(s.tailIndex + |op.items|), b)
    case UndoTail(op, b, _) => UndoLeft(s, Blocks(s.tailIndex + |op.items|), b) - 1
    case GiveBack(_, _) => Ours(s) + 2
  }

  lemma StartBound(s: State, op: Op)
    ensures Blocks(s.tailIndex) <= Blocks(s.tailIndex + |op.items|) + 1
    ensures s.tailIndex / BLOCK_SIZE <= Blocks(s.tailIndex + |op.items|)
    ensures Blocks(s.tailIndex) <= Blocks(s.tailIndex + |op.items|)
  {
  }

  /** Inserting an entry. */
  lemma InsertingNearer(s: State, a: Action)
    requires ProducerSafe(s) && a.Produce?
    requires var p := s.producer; p.Scan? || p.Publish? || p.StoreKey? || p.StoreTail?
    requires s.producer.n < Blocks(s.tailIndex + |s.producer.op.items|)
    ensures var s' := ProducerStep(s, a.items, a.junk, a.take); ProducerLeft(s') < ProducerLeft(s)
  {
    StartBound(s, s.producer.op);
  }

  lemma RewindingNearer(s: State, a: Action)
    requires ProducerSafe(s) && a.Produce? && (s.producer.Rewind? || s.producer.ClearEntry?)
    ensures var s' := ProducerStep(s, a.items, a.junk, a.take); ProducerLeft(s') < ProducerLeft(s)
  {
  }

  lemma TakingNearer(s: State, a: Action)
    requires ProducerSafe(s) && a.Produce? && s.producer.TakeBlock? && s.producer.n < Blocks(s.tailIndex + |s.producer.op.items|)
    ensures var s' := ProducerStep(s, a.items, a.junk, a.take); ProducerLeft(s') < ProducerLeft(s)
  {
    StartBound(s, s.producer.op);
    if a.take.Some? && a.take.value < |s.blocks| && a.take.value < |s.holder| && s.holder[a.take.value].Pool? {
      SumUpdate(s.holder, a.take.value, Holder.Ours, IsOurs);
    }
  }

  lemma StoringNearer(s: State, a: Action)
    requires ProducerSafe(s) && a.Produce? && s.producer.StoreValue? && s.producer.n < Blocks(s.tailIndex + |s.producer.op.items|)
    ensures var s' := ProducerStep(s, a.items, a.junk, a.take); ProducerLeft(s') < ProducerLeft(s)
  {
    StartBound(s, s.producer.op);
  }

  /** Another element, the next block, or done: never the same block twice. */
  lemma FillingNearer(s: State, g: Ghost, a: Action)
    requires InvWith(s, g) && ProducerSafe(s) && a.Produce? && (s.producer.Fill? || s.producer.Commit?)
    ensures var s' := ProducerStep(s, a.items, a.junk, a.take); ProducerLeft(s') < ProducerLeft(s)
  {
    ProducerFacts(s, g);
    if s.producer.Fill? { StartBound(s, s.producer.op); }
  }

  lemma UndoingNearer(s: State, g: Ghost, a: Action)
    requires InvWith(s, g) && ProducerSafe(s) && a.Produce? && (s.producer.UndoEntry? || s.producer.UndoTail?)
    ensures var s' := ProducerStep(s, a.items, a.junk, a.take); ProducerLeft(s') < ProducerLeft(s)
  {
    ProducerFacts(s, g);
    if s.producer.UndoEntry? && s.producer.at.Some? { UndoFacts(s, g); }
  }

  lemma GivingNearer(s: State, g: Ghost, a: Action)
    requires InvWith(s, g) && ProducerSafe(s) && a.Produce? && s.producer.GiveBack?
    ensures var s' := ProducerStep(s, a.items, a.junk, a.take); ProducerLeft(s') < ProducerLeft(s)
  {
    if s.producer.at.Some? {
      ProducerFacts(s, g);
      ProducerGive(s, g);
      assert Use(TheBlocks, true);
      SumUpdate(s.holder, s.producer.at.value, Pool, IsOurs);
    }
  }

  /** What is left is never negative. */
  lemma LeftNotNegative(s: State, g: Ghost)
    requires InvWith(s, g)
    ensures ProducerLeft(s) >= 0
  {
    ProducerFacts(s, g);
    if !s.producer.Idle? && !s.producer.GiveBack? && !s.producer.Commit? { StartBound(s, s.producer.op); }
  }

  /** Other threads do not put it off: they take no block for us. */
  lemma OthersKeepLeft(s: State, a: Action)
    requires !a.Produce?
    ensures ProducerLeft(Step(s, a)) <= ProducerLeft(s) && Step(s, a).producer == s.producer
  {
    OthersTakeNone(s, a);
    LeftDepends(s, Step(s, a));
  }

  lemma OthersTakeNone(s: State, a: Action)
    requires !a.Produce?
    ensures var s' := Step(s, a); s'.producer == s.producer && s'.tailIndex == s.tailIndex && Ours(s') <= Ours(s)
  {
    match a
    case Consume(c, n) =>
      if c < |s.consumers| && ConsumerSafe(s, c) { ConsumerKeepsLeft(s, c, n); }
    case Others(k, block, pool) =>
      if k < |s.blocks| && k < |s.holder| && !s.holder[k].Ours? { SumUpdate(s.holder, k, if pool then Pool else Elsewhere, IsOurs); }
  }

  lemma LeftDepends(s: State, s': State)
    requires s'.producer == s.producer && s'.tailIndex == s.tailIndex && Ours(s') <= Ours(s)
    ensures ProducerLeft(s') <= ProducerLeft(s)
  {
  }

  lemma ConsumerKeepsLeft(s: State, c: nat, n: nat)
    requires c < |s.consumers| && ConsumerSafe(s, c)
    ensures var s' := ConsumerStep(s, c, n);
            s'.producer == s.producer && s'.tailIndex == s.tailIndex && Ours(s') <= Ours(s)
  {
    match s.consumers[c].pc
    case Release => SumUpdate(s.holder, s.consumers[c].k, Pool, IsOurs);
    case LoadKey =>
    case Move =>
    case _ =>
  }

  /** A bulk enqueue is over after at most ProducerLeft more steps of the producer, which depends
      on the number of its items and of the blocks held only: each own step, whatever it is
      granted or refused, brings it nearer to the end, and no other thread's step puts it off. */
  lemma ProducerEnds(s: State, a: Action)
    requires Reachable(s)
    ensures ProducerLeft(s) >= 0
    ensures if a.Produce? then s.producer.Idle? || ProducerLeft(Step(s, a)) < ProducerLeft(s)
            else ProducerLeft(Step(s, a)) <= ProducerLeft(s) && Step(s, a).producer == s.producer
  {
    var g := ReachableInvariant(s);
    LeftNotNegative(s, g);
    NeverFaults(s, 0);
    if !a.Produce? { OthersKeepLeft(s, a); }
    else if IsAllocating(s.producer) {
      AllocFacts(s, g);
      ProducerFacts(s, g);
      if s.producer.TakeBlock? { TakingNearer(s, a); } else if s.producer.StoreValue? { StoringNearer(s, a); }
      else if s.producer.Rewind? || s.producer.ClearEntry? { RewindingNearer(s, a); } else { InsertingNearer(s, a); }
    }
    else if s.producer.Fill? || s.producer.Commit? { FillingNearer(s, g, a); }
    else if s.producer.UndoEntry? || s.producer.UndoTail? { UndoingNearer(s, g, a); }
    else if s.producer.GiveBack? { GivingNearer(s, g, a); }
  }
}
