/** Whole runs of the implicit producer's sub-queue, and what holds in all of them. */
module ImplicitRuns {
  import opened Counting
  import opened Options
  import opened Slots
  import opened BlockIndex
  import opened ImplicitQueue
  import opened ImplicitConsumers
  import opened ImplicitProducers

  // ---------------------------------------------------------------------------
  // Steps

  /** The producer's next access is to memory that exists, what it dereferences is not null,
      and its own lookup during a rollback finds the entry with the block's number and block,
      as the code asserts. */
  predicate ProducerSafe(s: State)
  {
    match s.producer
    case Idle => true
    case Scan(_, _) => IndexOk(s.ix)
    case Publish(_, _, junk) => IndexOk(s.ix) && |junk| == |Cur(s.ix).index|
    case StoreKey(_, _) => IndexOk(s.ix)
    case StoreTail(_, _) => IndexOk(s.ix)
    case TakeBlock(_, _) => true
    case StoreValue(_, _, _) => IndexOk(s.ix) && (Links(s) ==> s.tailBlock.Some? && s.tailBlock.value < |s.blocks|)
    case Fill(op, _, i) =>
      && s.tailIndex <= i
      && (!AtStop(s) || s.tailBlock != op.end ==>
            s.tailBlock.Some? && s.tailBlock.value < |s.blocks| && |s.blocks[s.tailBlock.value].cells| == BLOCK_SIZE)
    case Commit(_) => true
    case Rewind(_, _) => IndexOk(s.ix)
    case ClearEntry(_, _, e) => e < |s.ix.entries|
    case UndoEntry(_, b, at) =>
      IndexOk(s.ix) && (at.Some? ==> Lookup(s.ix, |s.ix.headers| - 1, b) == Some(Entry(Some(b), at)))
    case UndoTail(_, _, k) => IndexOk(s.ix) && k < |s.blocks|
    case GiveBack(_, at) => at.Some? ==> at.value < |s.blocks| == |s.holder|
  }

  function ProducerStep(s: State, items: seq<Value>, junk: Option<seq<Option<nat>>>, take: Option<nat>): State
    requires ProducerSafe(s)
  {
    match s.producer
    case Idle => Begin(s, items)
    case Scan(_, _) => ScanStep(s, junk)
    case Publish(_, _, _) => PublishStep(s)
    case StoreKey(_, _) => StoreKeyStep(s)
    case StoreTail(_, _) => StoreTailStep(s)
    case TakeBlock(_, _) => TakeBlockStep(s, take)
    case StoreValue(_, _, _) => StoreValueStep(s)
    case Fill(_, _, _) => FillStep(s)
    case Commit(_) => CommitStep(s)
    case Rewind(_, _) => RewindStep(s)
    case ClearEntry(_, _, _) => ClearEntryStep(s)
    case UndoEntry(_, _, _) => UndoEntryStep(s)
    case UndoTail(_, _, _) => UndoTailStep(s)
    case GiveBack(_, _) => GiveBackStep(s)
  }

  /** Likewise for a consumer, with the assertions of the code: the tail's key is valid, the
      entry has the key that was looked for and a block, the element is there, and the count
      stays within the block. */
  predicate ConsumerSafe(s: State, c: nat)
    requires c < |s.consumers|
  {
    var x := s.consumers[c];
    match x.pc
    case CIdle => true
    case LoadHeader => |s.ix.headers| > 0
    case LoadTail => x.h < |s.ix.headers|
    case LoadKey =>
      IndexOk(s.ix) && x.h < |s.ix.headers| && x.t < |s.ix.headers[x.h].index| && KeyAt(s.ix, x.h, x.t).Some?
    case LoadValue =>
      && IndexOk(s.ix) && x.h < |s.ix.headers| && x.j < |s.ix.headers[x.h].index|
      && s.ix.entries[EntryAt(s, x)].key == Some(x.from / BLOCK_SIZE) && s.ix.entries[EntryAt(s, x)].value.Some?
    case Move =>
      && x.k < |s.blocks| && |s.blocks[x.k].cells| == BLOCK_SIZE
      && (x.i < EndIndex(x) ==> s.blocks[x.k].cells[x.i % BLOCK_SIZE].Val?)
    case Mark =>
      && x.k < |s.blocks| && x.h < |s.ix.headers| && x.from <= x.i
      && s.blocks[x.k].count + (x.i - x.from) <= BLOCK_SIZE
    case Unlink => IndexOk(s.ix) && x.h < |s.ix.headers| && x.j < |s.ix.headers[x.h].index|
    case Release => x.k < |s.holder| && x.h < |s.ix.headers|
  }

  function ConsumerStep(s: State, c: nat, n: nat): State
    requires c < |s.consumers| && ConsumerSafe(s, c)
  {
    var x := s.consumers[c];
    match x.pc
    case CIdle => ClaimStep(s, c, n)
    case LoadHeader => SetC(s, c, x.(pc := LoadTail, h := |s.ix.headers| - 1))
    case LoadTail => SetC(s, c, x.(pc := LoadKey, t := s.ix.headers[x.h].tail))
    case LoadKey => LoadKeyStep(s, c)
    case LoadValue => LoadValueStep(s, c)
    case Move => MoveStep(s, c)
    case Mark => MarkStep(s, c)
    case Unlink => UnlinkStep(s, c)
    case Release => ReleaseStep(s, c)
  }

  /** A step of the whole system; a step that is not safe is not taken. */
  function Step(s: State, a: Action): State
  {
    match a
    case Produce(items, junk, take) => if ProducerSafe(s) then ProducerStep(s, items, junk, take) else s
    case Consume(c, n) => if c < |s.consumers| && ConsumerSafe(s, c) then ConsumerStep(s, c, n) else s
    case Others(k, block, pool) =>
      if k < |s.blocks| && k < |s.holder| && !s.holder[k].Ours? && |block.cells| == BLOCK_SIZE
      then s.(blocks := s.blocks[k := block], holder := s.holder[k := if pool then Pool else Elsewhere])
      else s
  }

  // ---------------------------------------------------------------------------
  // Steps keep the invariant and are safe

  lemma InsertingKeeps(s: State, g: Ghost, a: Action) returns (g': Ghost)
    requires InvWith(s, g) && a.Produce? && (s.producer.Idle? || IsAllocating(s.producer))
    ensures ProducerSafe(s) && InvWith(ProducerStep(s, a.items, a.junk, a.take), g')
    ensures Carries(g, g', Blocks(s.tailIndex))
  {
    g' := g;
    match s.producer
    case Idle => KeepBegin(s, g, a.items);
    case Scan(_, _) =>
      TailFacts(s, g);
      var x := s.ix.entries[Candidate(s.ix)];
      if x.key.None? || x.value.None? { KeepScan(s, g); }
      else if a.junk.Some? && |a.junk.value| == |Cur(s.ix).index| { KeepScanUsed(s, g, a.junk.value); }
      else { KeepScanFail(s, g); }
    case Publish(_, _, _) => g' := KeepPublish(s, g);
    case StoreKey(_, _) => g' := KeepStoreKey(s, g);
    case StoreTail(_, _) => KeepStoreTail(s, g);
    case TakeBlock(_, _) =>
      if a.take.Some? && a.take.value < |s.blocks| && a.take.value < |s.holder| && s.holder[a.take.value].Pool? {
        g' := KeepTakeBlock(s, g, a.take.value);
      } else {
        KeepTakeFail(s, g);
      }
    case StoreValue(_, _, _) => g' := KeepStoreValue(s, g);
    case Rewind(_, _) => KeepRewind(s, g);
    case ClearEntry(_, _, _) => KeepClearEntry(s, g);
  }

  lemma FinishingKeeps(s: State, g: Ghost, a: Action) returns (g': Ghost)
    requires InvWith(s, g) && a.Produce? && !s.producer.Idle? && !IsAllocating(s.producer)
    ensures ProducerSafe(s) && InvWith(ProducerStep(s, a.items, a.junk, a.take), g')
    ensures Carries(g, g', Blocks(s.tailIndex))
  {
    g' := g;
    match s.producer
    case Fill(_, _, _) => if AtStop(s) { KeepFillTurn(s, g); } else { KeepFill(s, g); }
    case Commit(_) => KeepCommit(s, g);
    case UndoEntry(_, _, at) => if at.Some? { UndoFound(s, g); g' := KeepUndoEntry(s, g); } else { g' := KeepUndone(s, g); }
    case UndoTail(_, _, _) => KeepUndoTail(s, g);
    case GiveBack(_, at) => if at.Some? { g' := KeepGiveBack(s, g); } else { KeepGivenAll(s, g); }
  }

  lemma ReadingKeeps(s: State, g: Ghost, c: nat, n: nat)
    requires InvWith(s, g) && c < |s.consumers|
    requires var pc := s.consumers[c].pc; pc.CIdle? || pc.LoadHeader? || pc.LoadTail? || pc.LoadKey? || pc.LoadValue? || pc.Move?
    ensures ConsumerSafe(s, c) && InvWith(ConsumerStep(s, c, n), g)
  {
    var x := s.consumers[c];
    match x.pc
    case CIdle => if n > 0 && s.headIndex + n <= s.tailIndex { KeepClaim(s, g, c, n); }
    case LoadHeader => KeepLoadHeader(s, g, c);
    case LoadTail => KeepLoadTail(s, g, c);
    case LoadKey => KeepLoadKey(s, g, c);
    case LoadValue => KeepLoadValue(s, g, c); FoundEntry(s, g, c);
    case Move => if x.i < EndIndex(x) { CellFound(s, g, c); KeepMove(s, g, c); } else { KeepMoveEnd(s, g, c); }
  }

  lemma CompletingKeeps(s: State, g: Ghost, c: nat, n: nat) returns (g': Ghost)
    requires InvWith(s, g) && c < |s.consumers|
    requires var pc := s.consumers[c].pc; pc.Mark? || pc.Unlink? || pc.Release?
    ensures ConsumerSafe(s, c) && InvWith(ConsumerStep(s, c, n), g')
    ensures Carries(g, g', Blocks(s.tailIndex))
  {
    match s.consumers[c].pc
    case Mark => CountFits(s, g, c); g' := KeepMark(s, g, c);
    case Unlink => g' := KeepUnlink(s, g, c);
    case Release => g' := KeepRelease(s, g, c);
  }

  lemma CountFits(s: State, g: Ghost, c: nat)
    requires InvWith(s, g) && c < |s.consumers| && s.consumers[c].pc.Mark?
    ensures s.consumers[c].k < |s.blocks| && s.consumers[c].from <= s.consumers[c].i
    ensures s.blocks[s.consumers[c].k].count + (s.consumers[c].i - s.consumers[c].from) <= BLOCK_SIZE
  {
    MarkFacts(s, g, c);
    var x, b := s.consumers[c], s.consumers[c].from / BLOCK_SIZE;
    MarkCounts(s, g, c, x.(from := x.i), b, s.blocks[x.k].(count := s.blocks[x.k].count + (x.i - x.from)));
  }

  lemma StepKeeps(s: State, g: Ghost, a: Action) returns (g': Ghost)
    requires InvWith(s, g)
    ensures InvWith(Step(s, a), g')
    ensures Carries(g, g', Blocks(s.tailIndex))
  {
    g' := g;
    match a
    case Produce(_, _, _) =>
      if s.producer.Idle? || IsAllocating(s.producer) { g' := InsertingKeeps(s, g, a); } else { g' := FinishingKeeps(s, g, a); }
    case Consume(c, n) =>
      if c < |s.consumers| {
        var pc := s.consumers[c].pc;
        if pc.Mark? || pc.Unlink? || pc.Release? { g' := CompletingKeeps(s, g, c, n); } else { ReadingKeeps(s, g, c, n); }
      }
    case Others(k, block, pool) =>
      if k < |s.blocks| && k < |s.holder| && !s.holder[k].Ours? && |block.cells| == BLOCK_SIZE {
        KeepOthers(s, g, k, block, if pool then Pool else Elsewhere);
      }
  }

  // ---------------------------------------------------------------------------
  // Runs

  /** A producer just constructed: an index of some capacity with fresh entries, no block. */
  ghost predicate Init(s: State)
  {
    && |s.ix.headers| == 1 && |s.ix.entries| > 0
    && s.ix.headers[0].index == seq(|s.ix.entries|, i => i) && s.ix.headers[0].tail == |s.ix.entries| - 1
    && (forall e :: 0 <= e < |s.ix.entries| ==> s.ix.entries[e].key.None?)
    && |s.blocks| == |s.holder| && (forall k :: 0 <= k < |s.blocks| ==> |s.blocks[k].cells| == BLOCK_SIZE)
    && (forall k :: 0 <= k < |s.holder| ==> !s.holder[k].Ours?)
    && s.tailIndex == 0 && s.headIndex == 0 && s.tailBlock == None
    && s.input == [] && s.log == [] && s.delivered == [] && s.released == multiset{} && s.producer == Idle
    && (forall c :: 0 <= c < |s.consumers| ==> s.consumers[c] == Consumer(CIdle, 0, 0, 0, 0, 0, 0, 0, 0, []))
  }

  ghost function Run(s: State, actions: seq<Action>): State
    decreases |actions|
  {
    if |actions| == 0 then s else Step(Run(s, actions[..|actions| - 1]), actions[|actions| - 1])
  }

  ghost predicate Reachable(s: State)
  {
    exists s0, actions :: Init(s0) && s == Run(s0, actions)
  }

  ghost predicate Inv(s: State) { exists g :: InvWith(s, g) }

  function InitGhost(s: State): Ghost { Ghost([0], 0, [], seq(|s.blocks|, _ => NotOurs), [], 0) }

  lemma InitSlots(s: State)
    requires Init(s)
    ensures SlotsOk(s.ix, InitGhost(s)) && Cur(s.ix).tail == SlotNow(s.ix, [0], -1)
  {
    var cap, h := |s.ix.entries|, s.ix.headers[0];
    assert HeaderOk(h, cap);
    forall j, j' | 0 <= j < |h.index| && 0 <= j' < |h.index| && h.index[j] == h.index[j']
      ensures SlotsAgree(|h.index|, 0, j, |h.index|, 0, j')
    {
      assert j == j';
    }
    assert Aligned(h, 0, h, 0);
    assert KeysOk(s.ix.entries, h, 0);
  }

  lemma InitInvariant(s: State)
    requires Init(s)
    ensures InvWith(s, InitGhost(s))
  {
    InitSlots(s);
    var g := InitGhost(s);
    assert IndexInv(s.ix, g, 0, 0, 0);
    assert BlocksInv(s.blocks, s.holder, g, None);
    assert ConsumersInv(s.consumers, s.ix, g, s.input, 0);
  }

  lemma {:induction false} RunInvariant(s: State, actions: seq<Action>)
    requires Init(s)
    ensures Inv(Run(s, actions))
    decreases |actions|
  {
    if |actions| == 0 {
      InitInvariant(s);
    } else {
      var n := |actions| - 1;
      RunInvariant(s, actions[..n]);
      var g :| InvWith(Run(s, actions[..n]), g);
      var g' := StepKeeps(Run(s, actions[..n]), g, actions[n]);
    }
  }

  lemma ReachableInvariant(s: State) returns (g: Ghost)
    requires Reachable(s)
    ensures InvWith(s, g)
  {
    var s0, actions :| Init(s0) && s == Run(s0, actions);
    RunInvariant(s0, actions);
    g :| InvWith(s, g);
  }

  // ---------------------------------------------------------------------------
  // What holds in every run

  /** No access goes wrong and no assertion of the code fails, whatever the interleaving. */
  lemma NeverFaults(s: State, c: nat)
    requires Reachable(s)
    ensures ProducerSafe(s)
    ensures c < |s.consumers| ==> ConsumerSafe(s, c)
  {
    var g := ReachableInvariant(s);
    var a := Produce([], None, None);
    if s.producer.Idle? || IsAllocating(s.producer) { var _ := InsertingKeeps(s, g, a); } else { var _ := FinishingKeeps(s, g, a); }
    if c < |s.consumers| {
      var pc := s.consumers[c].pc;
      if pc.Mark? || pc.Unlink? || pc.Release? { var _ := CompletingKeeps(s, g, c, 0); } else { ReadingKeeps(s, g, c, 0); }
    }
  }

  /** For every claimed index that is not marked yet, a lookup in the published header finds
      the entry with the number of the index's block and the block that holds the element,
      however many blocks were released out of order, rolled back or moved by growth. */
  lemma LookupFindsClaimed(s: State, c: nat, i: nat)
    requires Reachable(s) && c < |s.consumers| && s.consumers[c].from <= i < s.consumers[c].end
    ensures IndexOk(s.ix) && i < |s.input|
    ensures exists k :: Holds(s, c, i, k) && Lookup(s.ix, |s.ix.headers| - 1, i / BLOCK_SIZE) == Some(Entry(Some(i / BLOCK_SIZE), Some(k)))
  {
    var g := ReachableInvariant(s);
    var b := i / BLOCK_SIZE;
    ConsumerFacts(s, g, c);
    PendingIsLive(s, g, c, b);
    ClaimedLookup(s, g, c, b);
    ClaimedCell(s, g, c, i);
    assert Holds(s, c, i, g.info[b].blk);
  }

  lemma ClaimedLookup(s: State, g: Ghost, c: nat, b: nat)
    requires InvWith(s, g) && c < |s.consumers| && s.consumers[c].from < s.consumers[c].end && b < |g.info| && g.info[b].stage.Live?
    ensures IndexOk(s.ix) && Lookup(s.ix, |s.ix.headers| - 1, b) == Some(Entry(Some(b), Some(g.info[b].blk)))
  {
    var C := Blocks(s.tailIndex);
    TailPosition(s, g);
    ConsumerInUse(s, g, c);
    LookupNow(s.ix, g, C, Pos(s.producer, |g.info|, C), |g.info| + PendingCount(s.producer), b);
  }

  /** Block k is ours and has the element of index i, unless consumer c has moved it out. */
  ghost predicate Holds(s: State, c: nat, i: nat, k: nat)
    requires c < |s.consumers| && i < |s.input|
  {
    && k < |s.blocks| == |s.holder| && s.holder[k].Ours? && |s.blocks[k].cells| == BLOCK_SIZE
    && (s.consumers[c].i <= i ==> s.blocks[k].cells[i % BLOCK_SIZE] == Val(s.input[i]))
  }

  lemma ClaimedCell(s: State, g: Ghost, c: nat, i: nat)
    requires InvWith(s, g) && c < |s.consumers| && s.consumers[c].from <= i < s.consumers[c].end && i < |s.input|
    requires var b := i / BLOCK_SIZE; b < |g.info| && g.info[b].stage.Live?
    ensures Holds(s, c, i, g.info[i / BLOCK_SIZE].blk)
  {
    BlockFacts(s, g, i / BLOCK_SIZE);
    assert Use(TheBlocks, true) && Use(TheData, true);
    assert CellOk(s.blocks, g.info[i / BLOCK_SIZE], i, s.input, s.consumers, s.headIndex);
    if s.consumers[c].i <= i { assert ToMove(s.consumers[c], i); }
  }

  lemma LookupNow(ix: Index, g: Ghost, committed: nat, pos: int, bound: nat, b: nat)
    requires IndexInv(ix, g, committed, pos, bound) && AnyInUse(g.info, committed) && committed <= pos <= bound
    requires b < |g.info| && Occupies(g.info[b].stage)
    ensures IndexOk(ix) && Lookup(ix, |ix.headers| - 1, b) == Some(Entry(Some(b), Some(g.info[b].blk)))
  {
    assert Use(TheIndex, true);
    assert KeyAt(ix, |ix.headers| - 1, Cur(ix).tail) == EntryOf(ix, g, pos - 1).key;
    LookupFindsSlot(ix, g.shift, |g.shift| - 1, Cur(ix).tail, b);
    assert Held(ix, g, b, bound);
  }

  /** The same for a consumer that still holds an older header: at its block it has the entry
      with the block's number, the block it then moves elements out of. */
  lemma HeldHeaderFindsClaimed(s: State, c: nat)
    requires Reachable(s) && c < |s.consumers| && (s.consumers[c].pc.LoadValue? || s.consumers[c].pc.Move? || s.consumers[c].pc.Mark?)
    ensures var x := s.consumers[c];
            && IndexOk(s.ix) && x.h < |s.ix.headers| && x.j < |s.ix.headers[x.h].index| && x.from < |s.input|
            && s.ix.entries[EntryAt(s, x)].key == Some(x.from / BLOCK_SIZE)
            && (exists k :: s.ix.entries[EntryAt(s, x)].value == Some(k) && Holds(s, c, x.from, k) && (!x.pc.LoadValue? ==> x.k == k))
  {
    var g := ReachableInvariant(s);
    ConsumerFacts(s, g, c);
    FoundEntry(s, g, c);
    ClaimedCell(s, g, c, s.consumers[c].from);
  }

  /** What a consumer has moved out is what was enqueued at the indices it claimed, in order;
      and what was enqueued is what the successful calls were given, in order. */
  lemma DeliversInOrder(s: State, c: nat)
    requires Reachable(s) && c < |s.consumers|
    ensures var x := s.consumers[c];
            && x.first <= x.i <= x.end <= s.headIndex <= s.tailIndex == |s.input|
            && x.out == s.input[x.first..x.i]
            && (x.pc.CIdle? ==> x.i == x.end)
    ensures s.input == Enqueued(s.log)
  {
    var g := ReachableInvariant(s);
    ConsumerFacts(s, g, c);
    assert Use(TheLog, true);
  }

  /** Every delivery in the whole history is of a claimed index, with the element enqueued
      there, and no index is delivered twice. Every claimed index has been delivered or is in
      the range that one consumer has left to move out, never both. */
  lemma DeliveredOnce(s: State)
    requires Reachable(s)
    ensures forall p :: 0 <= p < |s.delivered| ==>
              var x := s.delivered[p]; x.i < s.headIndex && x.i < |s.input| && x.v == s.input[x.i]
    ensures forall p, q :: 0 <= p < q < |s.delivered| ==> s.delivered[p].i != s.delivered[q].i
    ensures forall i :: 0 <= i < s.headIndex ==>
              (IsDelivered(s.delivered, i) <==> forall c :: 0 <= c < |s.consumers| ==> !ToMove(s.consumers[c], i))
  {
    var g := ReachableInvariant(s);
    assert Use(TheDeliveries, true);
    forall p | 0 <= p < |s.delivered|
      ensures var x := s.delivered[p]; x.i < s.headIndex && x.i < |s.input| && x.v == s.input[x.i]
    {
      assert DeliveryOk(s.delivered[p], s.input, s.consumers, s.headIndex);
    }
    forall i | 0 <= i < s.headIndex
      ensures IsDelivered(s.delivered, i) <==> forall c :: 0 <= c < |s.consumers| ==> !ToMove(s.consumers[c], i)
    {
      if IsDelivered(s.delivered, i) {
        var p :| 0 <= p < |s.delivered| && s.delivered[p].i == i;
        assert DeliveryOk(s.delivered[p], s.input, s.consumers, s.headIndex);
      }
    }
  }

  /** No index is still to be moved out by two consumers. */
  lemma MovedOnce(s: State, c: nat, d: nat, i: nat)
    requires Reachable(s) && c < |s.consumers| && d < |s.consumers| && ToMove(s.consumers[c], i) && ToMove(s.consumers[d], i)
    ensures c == d
  {
    var g := ReachableInvariant(s);
    assert Use(TheConsumers, true);
    assert c != d ==> Apart(s.consumers[c], s.consumers[d]);
  }

  /** Each block is released at most once, and only when all its elements are claimed and no
      consumer has any of them left to move or mark. */
  lemma ReleasedOnce(s: State, b: nat)
    requires Reachable(s)
    ensures s.released[b] <= 1
    ensures s.released[b] == 1 ==> s.headIndex >= (b + 1) * BLOCK_SIZE && forall c :: 0 <= c < |s.consumers| ==> Pend(s.consumers[c], b) == 0
  {
    var g := ReachableInvariant(s);
    assert Use(TheReleases, true);
    if s.released[b] == 1 {
      assert Use(TheCounts, true);
      assert Counted(s.blocks, g.info[b], b, s.consumers, s.headIndex);
      forall c | 0 <= c < |s.consumers| ensures Pend(s.consumers[c], b) == 0 { SumMember(s.consumers, c, PendFn(b)); }
    }
  }

  /** And it does get released: a block all of whose elements are claimed and marked has been
      released, or its one completer is about to unlink or release it. */
  lemma CompletedIsReleased(s: State, b: nat)
    requires Reachable(s) && s.headIndex >= (b + 1) * BLOCK_SIZE && forall c :: 0 <= c < |s.consumers| ==> Pend(s.consumers[c], b) == 0
    ensures s.released[b] == 1
         || exists c :: 0 <= c < |s.consumers| && (s.consumers[c].pc.Unlink? || s.consumers[c].pc.Release?) && LastBlock(s.consumers[c]) == b
  {
    var g := ReachableInvariant(s);
    CommittedInserted(s, g);
    SumZero(s.consumers, PendFn(b));
    assert Use(TheCounts, true) && Use(TheReleases, true) && Use(TheStages, true);
    assert Counted(s.blocks, g.info[b], b, s.consumers, s.headIndex) && StageOk(g.info[b].stage, b, s.consumers);
  }

  /** The consumer about to release a block is the only one to do so; the block is ours, has
      not been released, is claimed whole, and all its elements are moved out. */
  lemma CompleterReleases(s: State, c: nat)
    requires Reachable(s) && c < |s.consumers| && s.consumers[c].pc.Release?
    ensures var x, b := s.consumers[c], LastBlock(s.consumers[c]);
            && 0 <= b && s.released[b] == 0 && s.headIndex >= (b + 1) * BLOCK_SIZE
            && x.k < |s.blocks| == |s.holder| && s.holder[x.k].Ours?
            && (forall o :: 0 <= o < |s.blocks[x.k].cells| ==> s.blocks[x.k].cells[o].Raw?)
    ensures forall d :: 0 <= d < |s.consumers| && d != c && (s.consumers[d].pc.Unlink? || s.consumers[d].pc.Release?) ==>
              s.consumers[d].k != s.consumers[c].k
    ensures forall d :: 0 <= d < |s.consumers| && d != c && (s.consumers[d].pc.Move? || s.consumers[d].pc.Mark?) ==>
              s.consumers[d].k != s.consumers[c].k
  {
    var g := ReachableInvariant(s);
    var x, b := s.consumers[c], LastBlock(s.consumers[c]);
    ConsumerFacts(s, g, c);
    BlockFacts(s, g, b);
    ReleaseFacts(s, g, b);
    forall d | 0 <= d < |s.consumers| && d != c && (s.consumers[d].pc.Unlink? || s.consumers[d].pc.Release?)
      ensures s.consumers[d].k != x.k
    {
      ConsumerFacts(s, g, d);
      BlocksDiffer(s, g, LastBlock(s.consumers[d]), b);
    }
    forall d | 0 <= d < |s.consumers| && d != c && (s.consumers[d].pc.Move? || s.consumers[d].pc.Mark?)
      ensures s.consumers[d].k != x.k
    {
      ConsumerFacts(s, g, d);
      FoundEntry(s, g, d);
      BlocksDiffer(s, g, s.consumers[d].from / BLOCK_SIZE, b);
    }
  }

  lemma ReleaseFacts(s: State, g: Ghost, b: nat)
    requires InvWith(s, g) && b < |g.info| && g.info[b].stage.Unlinked?
    ensures s.released[b] == 0 && s.headIndex >= (b + 1) * BLOCK_SIZE
    ensures g.info[b].blk < |s.blocks| == |s.holder| && s.holder[g.info[b].blk].Ours?
    ensures forall o :: 0 <= o < |s.blocks[g.info[b].blk].cells| ==> s.blocks[g.info[b].blk].cells[o].Raw?
  {
    assert Use(TheReleases, true) && Use(TheCounts, true) && Use(TheBlocks, true) && Use(TheData, true);
    assert Counted(s.blocks, g.info[b], b, s.consumers, s.headIndex) && AllRaw(s.blocks, g.info[b]);
  }

  /** The producer writes elements and links only into blocks of its own that are not
      released: tailBlock is the block of the index written. */
  lemma ProducerWritesOwn(s: State)
    requires Reachable(s)
    ensures s.producer.Fill? && !AtStop(s) ==>
              && s.tailBlock.Some? && s.tailBlock.value < |s.blocks| == |s.holder| && s.holder[s.tailBlock.value].Ours?
              && s.released[s.producer.i / BLOCK_SIZE] == 0 && s.producer.i >= s.tailIndex
    ensures s.producer.StoreValue? && Links(s) ==>
              && s.tailBlock.Some? && s.tailBlock.value < |s.blocks| == |s.holder| && s.holder[s.tailBlock.value].Ours?
              && s.tailBlock != Some(s.producer.k)
  {
    var g := ReachableInvariant(s);
    if s.producer.Fill? && !AtStop(s) {
      WritesOwnBlock(s, g);
      BlockFacts(s, g, s.producer.b);
      assert Use(TheReleases, true) && Use(TheBlocks, true);
    }
    if s.producer.StoreValue? && Links(s) {
      LinkTarget(s, g);
      BlockFacts(s, g, |g.info| - 1);
      assert Use(TheBlocks, true);
    }
  }

  /** Between calls, whether the last one succeeded or was rolled back: every block we hold
      is found in the published index under the number of an enqueued block, or a consumer is about to
      release it. So no block taken by a failed call is kept. */
  lemma NothingLeftBehind(s: State, k: nat)
    requires Reachable(s) && s.producer.Idle? && k < |s.holder| && s.holder[k].Ours?
    ensures (exists b: nat :: b < Blocks(s.tailIndex) && s.released[b] == 0 && Found(s, b, k))
         || (exists c :: 0 <= c < |s.consumers| && s.consumers[c].pc.Release? && s.consumers[c].k == k)
  {
    var g := ReachableInvariant(s);
    var b := OurBlock(s, g, k);
    if g.info[b].stage.Unlinked? {
      assert Use(TheStages, true);
      assert StageOk(g.info[b].stage, b, s.consumers);
      ConsumerFacts(s, g, g.info[b].stage.c);
    } else {
      FoundNow(s, g, b);
      NotReleased(s, g, b);
    }
  }

  /** A block number in use is found in the published header. */
  lemma FoundNow(s: State, g: Ghost, b: nat)
    requires InvWith(s, g) && b < |g.info| && b < Blocks(s.tailIndex) && Occupies(g.info[b].stage)
    ensures Found(s, b, g.info[b].blk)
  {
    var C := Blocks(s.tailIndex);
    TailPosition(s, g);
    LookupNow(s.ix, g, C, Pos(s.producer, |g.info|, C), |g.info| + PendingCount(s.producer), b);
  }

  lemma NotReleased(s: State, g: Ghost, b: nat)
    requires InvWith(s, g) && b < |g.info| && !g.info[b].stage.Dead?
    ensures s.released[b] == 0
  {
    assert Use(TheReleases, true);
  }

  /** Between calls no entry of the published index has a block under a number that has not
      been enqueued: a rolled-back call leaves no live entry. */
  lemma NoEntryLeft(s: State, j: nat)
    requires Reachable(s) && s.producer.Idle? && IndexOk(s.ix) && j < |Cur(s.ix).index|
    ensures var x := s.ix.entries[Cur(s.ix).index[j]];
            x.key.Some? && x.value.Some? ==> x.key.value < Blocks(s.tailIndex)
  {
    var g := ReachableInvariant(s);
    IdleCleared(s, g, j);
  }

  lemma IdleCleared(s: State, g: Ghost, j: nat)
    requires InvWith(s, g) && s.producer.Idle? && IndexOk(s.ix) && j < |Cur(s.ix).index|
    ensures var x := s.ix.entries[Cur(s.ix).index[j]];
            x.key.Some? && x.value.Some? ==> x.key.value < Blocks(s.tailIndex)
  {
    IdleFacts(s, g);
    LeftoverCleared(s.ix, g, Blocks(s.tailIndex), |g.info|, j);
  }

  /** A key beyond the blocks inserted is left over from a rollback and has no value. */
  lemma LeftoverCleared(ix: Index, g: Ghost, committed: nat, n: nat, j: nat)
    requires IndexInv(ix, g, committed, n, n) && |g.info| == n && IndexOk(ix) && j < |Cur(ix).index|
    ensures var x := ix.entries[Cur(ix).index[j]]; x.key.Some? && x.value.Some? ==> x.key.value < n
  {
    assert Use(TheIndex, true);
    var h, sh := Cur(ix), g.shift[|g.shift| - 1];
    var key := ix.entries[h.index[j]].key;
    assert KeysOk(ix.entries, h, sh) && KeyOk(key, h, sh, j) && KeyWithin(key, g.high - |h.index|, g.high);
    if key.Some? && key.value >= n {
      assert EntryNow(ix, g.shift, key.value) == h.index[j];
      assert EntryOf(ix, g, key.value) == Entry(Some(key.value), None);
    }
  }

  /** Between calls, also after a rollback, a partly filled last block is tailBlock, is held,
      and is the one the index has for the tail index. */
  lemma TailBlockReady(s: State)
    requires Reachable(s) && s.producer.Idle? && s.tailIndex % BLOCK_SIZE != 0
    ensures s.tailBlock.Some? && s.tailBlock.value < |s.blocks| == |s.holder| && s.holder[s.tailBlock.value].Ours?
    ensures Found(s, s.tailIndex / BLOCK_SIZE, s.tailBlock.value)
  {
    var g := ReachableInvariant(s);
    IdleFacts(s, g);
    var b := s.tailIndex / BLOCK_SIZE;
    UncommittedLive(s, g, b);
    HeldBlock(s, g, b);
    FoundNow(s, g, b);
  }

  lemma IdleFacts(s: State, g: Ghost)
    requires InvWith(s, g) && s.producer.Idle?
    ensures |g.info| == Blocks(s.tailIndex)
    ensures s.tailIndex % BLOCK_SIZE != 0 ==> s.tailBlock == Some(g.info[s.tailIndex / BLOCK_SIZE].blk)
  {
    ProducerFacts(s, g);
  }

  lemma HeldBlock(s: State, g: Ghost, b: nat)
    requires InvWith(s, g) && b < |g.info| && !g.info[b].stage.Dead?
    ensures g.info[b].blk < |s.blocks| == |s.holder| && s.holder[g.info[b].blk].Ours?
  {
    assert Use(TheBlocks, true);
  }

  /** A lookup in the published header finds block k under number b. */
  ghost predicate Found(s: State, b: nat, k: nat)
  {
    IndexOk(s.ix) && Lookup(s.ix, |s.ix.headers| - 1, b) == Some(Entry(Some(b), Some(k)))
  }

  lemma OurBlock(s: State, g: Ghost, k: nat) returns (b: nat)
    requires InvWith(s, g) && s.producer.Idle? && k < |s.holder| && s.holder[k].Ours?
    ensures b < |g.info| == Blocks(s.tailIndex) && g.info[b].blk == k && !g.info[b].stage.Dead? && !g.info[b].stage.Undone?
  {
    ProducerFacts(s, g);
    assert Use(TheBlocks, true) && Use(TheStages, true);
    assert OwnerOk(k, g, None);
    b := g.owner[k].b;
  }
}
