/** The consumers' steps keep the invariant of the implicit producer's sub-queue. */
module ImplicitConsumers {
  import opened Counting
  import opened Options
  import opened Slots
  import opened BlockIndex
  import opened ImplicitQueue

  // ---------------------------------------------------------------------------
  // Facts about a consumer

  lemma ConsumerFacts(s: State, g: Ghost, c: nat)
    requires InvWith(s, g) && c < |s.consumers|
    ensures SlotsOk(s.ix, g) && RangeOk(s.consumers[c], s.input, s.headIndex) && PcOk(s.consumers[c], c, s.ix, g)
  {
    assert Use(TheConsumers, true);
  }

  lemma BlockFacts(s: State, g: Ghost, b: nat)
    requires InvWith(s, g) && b < |g.info| && !g.info[b].stage.Dead?
    ensures |s.blocks| == |s.holder| == |g.owner|
    ensures var k := g.info[b].blk; k < |s.blocks| && |s.blocks[k].cells| == BLOCK_SIZE && g.owner[k] == Of(b)
  {
    assert Use(TheBlocks, true);
  }

  /** A block with claimed indices that are not marked yet is in use. */
  lemma PendingStage(blocks: seq<Block>, info: seq<Info>, committed: nat, consumers: seq<Consumer>, head: nat, c: nat, b: nat)
    requires CountInv(blocks, info, consumers, head) && StagesInv(info, committed, consumers)
    requires c < |consumers| && b < |info| && b < committed && Pend(consumers[c], b) > 0
    ensures info[b].stage.Live?
  {
    assert Use(TheCounts, true) && Use(TheStages, true);
    SumMember(consumers, c, PendFn(b));
    assert Counted(blocks, info[b], b, consumers, head);
  }

  lemma CommittedInserted(s: State, g: Ghost)
    requires InvWith(s, g)
    ensures Blocks(s.tailIndex) <= |g.info|
  {
    assert Use(TheIndex, true);
  }

  lemma PendingIsLive(s: State, g: Ghost, c: nat, b: nat)
    requires InvWith(s, g) && c < |s.consumers| && Pend(s.consumers[c], b) > 0
    ensures b < |g.info| && g.info[b].stage.Live? && b < Blocks(s.tailIndex)
  {
    ConsumerFacts(s, g, c);
    CommittedInserted(s, g);
    assert b * BLOCK_SIZE < s.consumers[c].end <= s.tailIndex;
    PendingStage(s.blocks, g.info, Blocks(s.tailIndex), s.consumers, s.headIndex, c, b);
  }

  lemma PendingAllLive(s: State, g: Ghost, c: nat)
    requires InvWith(s, g) && c < |s.consumers|
    ensures forall b :: 0 <= b < |g.info| && Pend(s.consumers[c], b) > 0 ==> g.info[b].stage.Live?
  {
    forall b | 0 <= b < |g.info| && Pend(s.consumers[c], b) > 0 ensures g.info[b].stage.Live? { PendingIsLive(s, g, c, b); }
  }

  // ---------------------------------------------------------------------------
  // Changes of one consumer's record

  lemma PendUpdate(consumers: seq<Consumer>, c: nat, x: Consumer, b: nat)
    requires c < |consumers|
    ensures Sum(consumers[c := x], PendFn(b)) == Sum(consumers, PendFn(b)) - Pend(consumers[c], b) + Pend(x, b)
  {
    SumUpdate(consumers, c, x, PendFn(b));
  }

  /** A consumer's step that leaves its range, marks and moves alone. */
  ghost predicate SameRange(x: Consumer, x': Consumer)
  {
    x'.first == x.first && x'.end == x.end && x'.from == x.from && x'.i == x.i && x'.out == x.out
  }

  lemma CountSame(blocks: seq<Block>, info: seq<Info>, consumers: seq<Consumer>, head: nat, c: nat, x: Consumer)
    requires CountInv(blocks, info, consumers, head) && c < |consumers| && x.from == consumers[c].from && x.end == consumers[c].end
    ensures CountInv(blocks, info, consumers[c := x], head)
  {
    assert Use(TheCounts, true);
    forall b | 0 <= b < |info| ensures Counted(blocks, info[b], b, consumers[c := x], head) {
      assert Counted(blocks, info[b], b, consumers, head);
      PendUpdate(consumers, c, x, b);
    }
  }

  lemma UnmovedSame(consumers: seq<Consumer>, head: nat, c: nat, x: Consumer, i: nat)
    requires c < |consumers| && x.i == consumers[c].i && x.end == consumers[c].end
    ensures Unmoved(consumers[c := x], head, i) <==> Unmoved(consumers, head, i)
  {
    var after := consumers[c := x];
    if d :| 0 <= d < |consumers| && ToMove(consumers[d], i) { assert ToMove(after[d], i); }
    if d :| 0 <= d < |after| && ToMove(after[d], i) { assert ToMove(consumers[d], i); }
  }

  lemma DataSame(blocks: seq<Block>, info: seq<Info>, input: seq<Value>, consumers: seq<Consumer>, head: nat, c: nat, x: Consumer)
    requires DataInv(blocks, info, input, consumers, head) && c < |consumers|
    requires x.i == consumers[c].i && x.end == consumers[c].end
    ensures DataInv(blocks, info, input, consumers[c := x], head)
  {
    assert Use(TheData, true);
    forall i | 0 <= i < |input|
      ensures i / BLOCK_SIZE < |info| && CellOk(blocks, info[i / BLOCK_SIZE], i, input, consumers[c := x], head)
    {
      assert CellOk(blocks, info[i / BLOCK_SIZE], i, input, consumers, head);
      UnmovedSame(consumers, head, c, x, i);
    }
  }

  /** Nothing changes about what is still to be moved out. */
  lemma DeliveriesSame(delivered: seq<Delivery>, input: seq<Value>, consumers: seq<Consumer>, head: nat, c: nat, x: Consumer)
    requires DeliveriesInv(delivered, input, consumers, head) && c < |consumers|
    requires x.i == consumers[c].i && x.end == consumers[c].end
    ensures DeliveriesInv(delivered, input, consumers[c := x], head)
  {
    assert Use(TheDeliveries, true);
    forall p | 0 <= p < |delivered| ensures DeliveryOk(delivered[p], input, consumers[c := x], head) {
      assert DeliveryOk(delivered[p], input, consumers, head);
      UnmovedSame(consumers, head, c, x, delivered[p].i);
    }
    forall i | 0 <= i < head ensures Unmoved(consumers[c := x], head, i) || IsDelivered(delivered, i) {
      UnmovedSame(consumers, head, c, x, i);
    }
  }

  /** The other consumers do not notice. */
  lemma OneConsumer(consumers: seq<Consumer>, ix: Index, g: Ghost, input: seq<Value>, head: nat, c: nat, x: Consumer)
    requires ConsumersInv(consumers, ix, g, input, head) && c < |consumers| && SlotsOk(ix, g)
    requires RangeOk(x, input, head) && PcOk(x, c, ix, g) && x.end == consumers[c].end && x.i >= consumers[c].i
    ensures ConsumersInv(consumers[c := x], ix, g, input, head)
  {
    assert Use(TheConsumers, true);
    var after := consumers[c := x];
    forall d, e | 0 <= d < |after| && 0 <= e < |after| && d != e ensures Apart(after[d], after[e]) {
      assert Apart(consumers[d], consumers[e]);
    }
  }

  /** Stages mention only consumers at the completer's points. */
  lemma StagesSame(info: seq<Info>, committed: nat, consumers: seq<Consumer>, c: nat, x: Consumer)
    requires StagesInv(info, committed, consumers) && c < |consumers| && !consumers[c].pc.Unlink? && !consumers[c].pc.Release?
    ensures StagesInv(info, committed, consumers[c := x])
  {
    assert Use(TheStages, true);
    forall b | 0 <= b < |info| ensures StageOk(info[b].stage, b, consumers[c := x]) {
      assert StageOk(info[b].stage, b, consumers);
    }
  }

  /** A step that changes one consumer's record only, outside the completer's points. */
  lemma KeepLook(s: State, g: Ghost, c: nat, x: Consumer)
    requires InvWith(s, g) && c < |s.consumers| && SameRange(s.consumers[c], x)
    requires !s.consumers[c].pc.Unlink? && !s.consumers[c].pc.Release?
    requires SlotsOk(s.ix, g) && PcOk(x, c, s.ix, g)
    ensures InvWith(SetC(s, c, x), g)
  {
    CountSame(s.blocks, g.info, s.consumers, s.headIndex, c, x);
    DataSame(s.blocks, g.info, s.input, s.consumers, s.headIndex, c, x);
    LookConsumers(s, g, c, x);
    StagesSame(g.info, Blocks(s.tailIndex), s.consumers, c, x);
    DeliveriesSame(s.delivered, s.input, s.consumers, s.headIndex, c, x);
  }

  lemma LookConsumers(s: State, g: Ghost, c: nat, x: Consumer)
    requires InvWith(s, g) && c < |s.consumers| && SameRange(s.consumers[c], x) && SlotsOk(s.ix, g) && PcOk(x, c, s.ix, g)
    ensures ConsumersInv(s.consumers[c := x], s.ix, g, s.input, s.headIndex)
  {
    ConsumerFacts(s, g, c);
    OneConsumer(s.consumers, s.ix, g, s.input, s.headIndex, c, x);
  }

  // ---------------------------------------------------------------------------
  // Lookup

  lemma SeesSame(x: Consumer, x': Consumer, ix: Index, g: Ghost)
    requires SlotsOk(ix, g) && x.h < |g.shift| && Sees(x, ix, g)
    requires x'.h == x.h && x'.end == x.end && x'.from >= x.from
    ensures Sees(x', ix, g)
  {
  }

  /** The published header has the entries of all blocks a consumer still has to visit. */
  lemma SeesNow(ix: Index, g: Ghost, committed: nat, pos: int, bound: nat, x: Consumer)
    requires IndexInv(ix, g, committed, pos, bound) && x.from < x.end && x.h == |ix.headers| - 1
    requires forall b :: 0 <= b < |g.info| && Pend(x, b) > 0 ==> g.info[b].stage.Live?
    ensures SlotsOk(ix, g) && Sees(x, ix, g)
  {
    assert Use(TheIndex, true);
    forall b | x.from / BLOCK_SIZE <= b < |g.info| && b * BLOCK_SIZE < x.end
      ensures EntryIn(ix, g.shift, x.h, b) == g.info[b].entry
    {
      assert Pend(x, b) > 0;
      assert Held(ix, g, b, bound);
    }
  }

  /** A consumer with a claimed index finds a key at the tail of the published header, even
      while the producer inserts or rolls back. */
  lemma HeaderPc(x: Consumer, c: nat, ix: Index, g: Ghost, committed: nat, pos: int, bound: nat)
    requires IndexInv(ix, g, committed, pos, bound) && committed <= pos <= bound && x.pc.LoadHeader? && x.from == x.i < x.end
    requires forall b :: 0 <= b < |g.info| && Pend(x, b) > 0 ==> g.info[b].stage.Live?
    requires x.end <= committed * BLOCK_SIZE
    ensures SlotsOk(ix, g) && PcOk(x.(pc := LoadTail, h := |ix.headers| - 1), c, ix, g)
  {
    assert Use(TheIndex, true);
    var x', b := x.(pc := LoadTail, h := |ix.headers| - 1), x.from / BLOCK_SIZE;
    assert forall b :: 0 <= b < |g.info| ==> Pend(x', b) == Pend(x, b);
    SeesNow(ix, g, committed, pos, bound, x');
    assert b < committed && Pend(x, b) > 0;
    assert KeyAt(ix, |ix.headers| - 1, Cur(ix).tail) == EntryOf(ix, g, pos - 1).key;
  }

  /** The tail of the index is at the last committed block or at a later one. */
  lemma TailPosition(s: State, g: Ghost)
    requires InvWith(s, g)
    ensures var C, pos := Blocks(s.tailIndex), Pos(s.producer, |g.info|, Blocks(s.tailIndex));
            C <= pos <= |g.info| + PendingCount(s.producer)
  {
    CommittedInserted(s, g);
    assert Use(TheProducer, true);
  }

  lemma KeepLoadHeader(s: State, g: Ghost, c: nat)
    requires InvWith(s, g) && c < |s.consumers| && s.consumers[c].pc.LoadHeader?
    ensures |s.ix.headers| > 0 && InvWith(SetC(s, c, s.consumers[c].(pc := LoadTail, h := |s.ix.headers| - 1)), g)
  {
    var x, C := s.consumers[c], Blocks(s.tailIndex);
    ConsumerFacts(s, g, c);
    PendingAllLive(s, g, c);
    TailPosition(s, g);
    HeaderPc(x, c, s.ix, g, C, Pos(s.producer, |g.info|, C), |g.info| + PendingCount(s.producer));
    KeepLook(s, g, c, x.(pc := LoadTail, h := |s.ix.headers| - 1));
  }

  lemma KeepLoadTail(s: State, g: Ghost, c: nat)
    requires InvWith(s, g) && c < |s.consumers| && s.consumers[c].pc.LoadTail?
    ensures s.consumers[c].h < |s.ix.headers|
    ensures InvWith(SetC(s, c, s.consumers[c].(pc := LoadKey, t := s.ix.headers[s.consumers[c].h].tail)), g)
  {
    var x := s.consumers[c];
    ConsumerFacts(s, g, c);
    assert HeaderOk(s.ix.headers[x.h], |s.ix.entries|);
    var x' := x.(pc := LoadKey, t := s.ix.headers[x.h].tail);
    SeesSame(x, x', s.ix, g);
    KeepLook(s, g, c, x');
  }

  lemma LookupPc(x: Consumer, c: nat, ix: Index, g: Ghost)
    requires SlotsOk(ix, g) && PcOk(x, c, ix, g) && x.pc.LoadKey?
    ensures var j := Walk(|ix.headers[x.h].index|, x.t, x.from / BLOCK_SIZE - KeyAt(ix, x.h, x.t).value);
            PcOk(x.(pc := LoadValue, j := j), c, ix, g)
  {
    LookupFindsSlot(ix, g.shift, x.h, x.t, x.from / BLOCK_SIZE);
    SeesSame(x, x.(pc := LoadValue, j := SlotOf(ix.headers[x.h], g.shift[x.h], x.from / BLOCK_SIZE)), ix, g);
  }

  lemma LoadKeyShape(s: State, c: nat) returns (x': Consumer)
    requires c < |s.consumers| && IndexOk(s.ix)
    requires var x := s.consumers[c]; x.h < |s.ix.headers| && x.t < |s.ix.headers[x.h].index| && KeyAt(s.ix, x.h, x.t).Some?
    ensures var x := s.consumers[c];
            x' == x.(pc := LoadValue, j := Walk(|s.ix.headers[x.h].index|, x.t, x.from / BLOCK_SIZE - KeyAt(s.ix, x.h, x.t).value))
    ensures LoadKeyStep(s, c) == SetC(s, c, x')
  {
    x' := LoadKeyStep(s, c).consumers[c];
  }

  /** The code's assertion that the tail's key is valid holds, and the slot is right. */
  lemma KeepLoadKey(s: State, g: Ghost, c: nat)
    requires InvWith(s, g) && c < |s.consumers| && s.consumers[c].pc.LoadKey?
    ensures IndexOk(s.ix) && s.consumers[c].h < |s.ix.headers| && s.consumers[c].t < |s.ix.headers[s.consumers[c].h].index|
    ensures KeyAt(s.ix, s.consumers[c].h, s.consumers[c].t).Some?
    ensures InvWith(LoadKeyStep(s, c), g)
  {
    ConsumerFacts(s, g, c);
    LookupPc(s.consumers[c], c, s.ix, g);
    var x' := LoadKeyShape(s, c);
    KeepLook(s, g, c, x');
  }

  /** The entry found in the header that the consumer holds, at its block. */
  lemma EntryFound(x: Consumer, c: nat, ix: Index, g: Ghost, committed: nat, pos: int, bound: nat)
    requires IndexInv(ix, g, committed, pos, bound) && SlotsOk(ix, g) && PcOk(x, c, ix, g)
    requires x.pc.LoadValue? || x.pc.Move? || x.pc.Mark?
    requires var b := x.from / BLOCK_SIZE; b < |g.info| && g.info[b].stage.Live?
    ensures var b := x.from / BLOCK_SIZE;
            && x.h < |ix.headers| && x.j < |ix.headers[x.h].index| && g.info[b].entry < |ix.entries|
            && ix.headers[x.h].index[x.j] == g.info[b].entry
            && ix.entries[g.info[b].entry] == Entry(Some(b), Some(g.info[b].blk))
  {
    assert Use(TheIndex, true);
    var b := x.from / BLOCK_SIZE;
    assert Held(ix, g, b, bound);
    WalkBound(|ix.headers[x.h].index|, g.shift[x.h], b);
  }

  lemma AtPending(x: Consumer, c: nat, ix: Index, g: Ghost)
    requires SlotsOk(ix, g) && PcOk(x, c, ix, g) && (x.pc.LoadValue? || x.pc.Move? || x.pc.Mark?)
    ensures Pend(x, x.from / BLOCK_SIZE) > 0
  {
  }

  /** For every claimed index not yet marked, a consumer at its block has the slot whose
      entry has the block's number and the block that holds the elements. */
  lemma FoundEntry(s: State, g: Ghost, c: nat)
    requires InvWith(s, g) && c < |s.consumers|
    requires s.consumers[c].pc.LoadValue? || s.consumers[c].pc.Move? || s.consumers[c].pc.Mark?
    ensures var x := s.consumers[c];
            var b := x.from / BLOCK_SIZE;
            && IndexOk(s.ix) && x.h < |s.ix.headers| && x.j < |s.ix.headers[x.h].index| && b < |g.info| && g.info[b].stage.Live?
            && EntryAt(s, x) == g.info[b].entry
            && s.ix.entries[EntryAt(s, x)] == Entry(Some(b), Some(g.info[b].blk))
  {
    var x, C := s.consumers[c], Blocks(s.tailIndex);
    ConsumerFacts(s, g, c);
    AtPending(x, c, s.ix, g);
    PendingIsLive(s, g, c, x.from / BLOCK_SIZE);
    EntryFound(x, c, s.ix, g, C, Pos(s.producer, |g.info|, C), |g.info| + PendingCount(s.producer));
  }

  lemma KeepLoadValue(s: State, g: Ghost, c: nat)
    requires InvWith(s, g) && c < |s.consumers| && s.consumers[c].pc.LoadValue?
    ensures IndexOk(s.ix) && s.consumers[c].h < |s.ix.headers| && s.consumers[c].j < |s.ix.headers[s.consumers[c].h].index|
    ensures InvWith(LoadValueStep(s, c), g)
  {
    var x := s.consumers[c];
    ConsumerFacts(s, g, c);
    FoundEntry(s, g, c);
    var x' := x.(pc := Move, k := g.info[x.from / BLOCK_SIZE].blk);
    SeesSame(x, x', s.ix, g);
    KeepLook(s, g, c, x');
  }

  // ---------------------------------------------------------------------------
  // Claiming

  lemma CountClaim(blocks: seq<Block>, info: seq<Info>, consumers: seq<Consumer>, head: nat, c: nat, x: Consumer)
    requires CountInv(blocks, info, consumers, head) && c < |consumers| && consumers[c].from >= consumers[c].end
    requires x.from == head <= x.end
    ensures CountInv(blocks, info, consumers[c := x], x.end)
  {
    assert Use(TheCounts, true);
    forall b | 0 <= b < |info| ensures Counted(blocks, info[b], b, consumers[c := x], x.end) {
      assert Counted(blocks, info[b], b, consumers, head);
      PendUpdate(consumers, c, x, b);
    }
  }

  lemma DataClaim(blocks: seq<Block>, info: seq<Info>, input: seq<Value>, consumers: seq<Consumer>, head: nat, c: nat, x: Consumer)
    requires DataInv(blocks, info, input, consumers, head) && c < |consumers| && consumers[c].i >= consumers[c].end
    requires x.i == head <= x.end
    ensures DataInv(blocks, info, input, consumers[c := x], x.end)
  {
    assert Use(TheData, true);
    var after := consumers[c := x];
    forall i | 0 <= i < |input|
      ensures i / BLOCK_SIZE < |info| && CellOk(blocks, info[i / BLOCK_SIZE], i, input, after, x.end)
    {
      assert CellOk(blocks, info[i / BLOCK_SIZE], i, input, consumers, head);
      UnmovedClaim(consumers, head, c, x, i);
    }
  }

  /** A claim takes indices that were beyond the head: still to be moved out. */
  lemma UnmovedClaim(consumers: seq<Consumer>, head: nat, c: nat, x: Consumer, i: nat)
    requires c < |consumers| && consumers[c].i >= consumers[c].end && x.i == head <= x.end
    ensures Unmoved(consumers[c := x], x.end, i) <==> Unmoved(consumers, head, i)
  {
    var after := consumers[c := x];
    if d :| 0 <= d < |consumers| && ToMove(consumers[d], i) { assert ToMove(after[d], i); }
    if d :| 0 <= d < |after| && ToMove(after[d], i) { assert d != c ==> ToMove(consumers[d], i); }
    if head <= i < x.end { assert ToMove(after[c], i); }
  }

  lemma DeliveriesClaim(delivered: seq<Delivery>, input: seq<Value>, consumers: seq<Consumer>, head: nat, c: nat, x: Consumer)
    requires DeliveriesInv(delivered, input, consumers, head) && c < |consumers| && consumers[c].i >= consumers[c].end
    requires x.i == head <= x.end
    ensures DeliveriesInv(delivered, input, consumers[c := x], x.end)
  {
    assert Use(TheDeliveries, true);
    forall p | 0 <= p < |delivered| ensures DeliveryOk(delivered[p], input, consumers[c := x], x.end) {
      assert DeliveryOk(delivered[p], input, consumers, head);
      UnmovedClaim(consumers, head, c, x, delivered[p].i);
    }
    forall i | 0 <= i < x.end ensures Unmoved(consumers[c := x], x.end, i) || IsDelivered(delivered, i) {
      UnmovedClaim(consumers, head, c, x, i);
    }
  }

  lemma ConsumersClaim(consumers: seq<Consumer>, ix: Index, g: Ghost, input: seq<Value>, head: nat, c: nat, x: Consumer)
    requires ConsumersInv(consumers, ix, g, input, head) && c < |consumers|
    requires x.i == head <= x.end <= |input| && x.pc.LoadHeader? && x.first == x.from == x.i < x.end && x.out == []
    ensures ConsumersInv(consumers[c := x], ix, g, input, x.end)
  {
    assert Use(TheConsumers, true);
    var after := consumers[c := x];
    forall d | 0 <= d < |after| ensures RangeOk(after[d], input, x.end) { assert d != c ==> RangeOk(consumers[d], input, head); }
    forall d, e | 0 <= d < |after| && 0 <= e < |after| && d != e ensures Apart(after[d], after[e]) {
      assert RangeOk(consumers[d], input, head) && RangeOk(consumers[e], input, head) && Apart(consumers[d], consumers[e]);
    }
  }

  lemma KeepClaim(s: State, g: Ghost, c: nat, n: nat)
    requires InvWith(s, g) && c < |s.consumers| && s.consumers[c].pc.CIdle? && n > 0 && s.headIndex + n <= s.tailIndex
    ensures InvWith(ClaimStep(s, c, n), g)
  {
    var end := s.headIndex + n;
    var x := Consumer(LoadHeader, s.headIndex, end, s.headIndex, s.headIndex, 0, 0, 0, 0, []);
    ConsumerFacts(s, g, c);
    CountClaim(s.blocks, g.info, s.consumers, s.headIndex, c, x);
    DataClaim(s.blocks, g.info, s.input, s.consumers, s.headIndex, c, x);
    ConsumersClaim(s.consumers, s.ix, g, s.input, s.headIndex, c, x);
    DeliveriesClaim(s.delivered, s.input, s.consumers, s.headIndex, c, x);
    StagesSame(g.info, Blocks(s.tailIndex), s.consumers, c, x);
    assert ClaimStep(s, c, n) == s.(headIndex := end, consumers := s.consumers[c := x]);
  }

  // ---------------------------------------------------------------------------
  // Changes of one block

  /** A block of ours in which one cell or the count changes, seen by the producer: it only
      looks at links, and at cells from the tail index on. */
  lemma ProducerSame(p: Producer, tail: nat, tailBlock: Option<nat>, blocks: seq<Block>, ix: Index, g: Ghost, blocks': seq<Block>)
    requires ProducerInv(p, tail, tailBlock, blocks, ix, g) && |blocks'| == |blocks|
    requires forall k :: 0 <= k < |blocks| ==> blocks'[k].next == blocks[k].next
    requires p.StoreValue? && p.k < |blocks| ==> blocks'[p.k].count == blocks[p.k].count
    requires forall x :: tail <= x ==> SameCell(blocks, blocks', g.info, x)
    ensures ProducerInv(p, tail, tailBlock, blocks', ix, g)
  {
    assert Use(TheProducer, true);
    var C, partial := Blocks(tail), tail % BLOCK_SIZE != 0;
    LinkedSame(blocks, g.info, C, partial, blocks');
    if p.GiveBack? { ChainSame(blocks, g.chain, g.given, p.at, blocks'); }
    if p.Fill? { FilledSame(blocks, g.info, tail, p.op.items, p.i, blocks'); }
    if p.Commit? { FilledSame(blocks, g.info, tail, p.op.items, tail + |p.op.items|, blocks'); }
  }

  lemma FilledSame(blocks: seq<Block>, info: seq<Info>, tail: nat, items: seq<Value>, i: nat, blocks': seq<Block>)
    requires Filled(blocks, info, tail, items, i) && |blocks'| == |blocks|
    requires forall x :: tail <= x ==> SameCell(blocks, blocks', info, x)
    ensures Filled(blocks', info, tail, items, i)
  {
    forall x | tail <= x < i ensures FilledAt(blocks', info, tail, items, x) {
      assert FilledAt(blocks, info, tail, items, x) && SameCell(blocks, blocks', info, x);
    }
  }

  ghost predicate SameCell(blocks: seq<Block>, blocks': seq<Block>, info: seq<Info>, x: nat)
  {
    x / BLOCK_SIZE < |info| && info[x / BLOCK_SIZE].blk < |blocks| == |blocks'| && |blocks[info[x / BLOCK_SIZE].blk].cells| == BLOCK_SIZE ==>
      var k := info[x / BLOCK_SIZE].blk;
      |blocks'[k].cells| == BLOCK_SIZE && blocks'[k].cells[x % BLOCK_SIZE] == blocks[k].cells[x % BLOCK_SIZE]
  }

  lemma LinkedSame(blocks: seq<Block>, info: seq<Info>, committed: nat, partial: bool, blocks': seq<Block>)
    requires |blocks'| == |blocks| && forall k :: 0 <= k < |blocks| ==> blocks'[k].next == blocks[k].next
    ensures Linked(blocks, info, committed, partial) ==> Linked(blocks', info, committed, partial)
  {
    if Linked(blocks, info, committed, partial) {
      forall b | committed <= b < |info| - 1 ensures LinkAt(blocks', info, b) { assert LinkAt(blocks, info, b); }
    }
  }

  lemma ChainSame(blocks: seq<Block>, chain: seq<nat>, given: nat, at: Option<nat>, blocks': seq<Block>)
    requires |blocks'| == |blocks| && forall k :: 0 <= k < |blocks| ==> blocks'[k].next == blocks[k].next
    ensures ChainLinked(blocks, chain, given, at) ==> ChainLinked(blocks', chain, given, at)
  {
    if ChainLinked(blocks, chain, given, at) {
      forall p | given <= p < |chain| ensures ChainAt(blocks', chain, p) { assert ChainAt(blocks, chain, p); }
    }
  }

  lemma BlocksSame(blocks: seq<Block>, holder: seq<Holder>, g: Ghost, spare: Option<nat>, k: nat, block: Block)
    requires BlocksInv(blocks, holder, g, spare) && k < |blocks| && |block.cells| == BLOCK_SIZE
    ensures BlocksInv(blocks[k := block], holder, g, spare)
  {
  }

  lemma CountBlock(blocks: seq<Block>, info: seq<Info>, consumers: seq<Consumer>, head: nat, k: nat, block: Block)
    requires CountInv(blocks, info, consumers, head) && k < |blocks| && block.count == blocks[k].count
    ensures CountInv(blocks[k := block], info, consumers, head)
  {
    assert Use(TheCounts, true);
    forall b | 0 <= b < |info| ensures Counted(blocks[k := block], info[b], b, consumers, head) {
      assert Counted(blocks, info[b], b, consumers, head);
    }
  }

  // ---------------------------------------------------------------------------
  // Moving an element out

  /** Different numbers of blocks in use have different blocks. */
  lemma BlocksDiffer(s: State, g: Ghost, a: nat, b: nat)
    requires InvWith(s, g) && a < |g.info| && b < |g.info| && a != b && !g.info[a].stage.Dead? && !g.info[b].stage.Dead?
    ensures g.info[a].blk != g.info[b].blk
  {
    BlockFacts(s, g, a);
    BlockFacts(s, g, b);
  }

  lemma MovedUnmoved(consumers: seq<Consumer>, ix: Index, g: Ghost, input: seq<Value>, head: nat, c: nat, x: Consumer, i: nat)
    requires ConsumersInv(consumers, ix, g, input, head) && c < |consumers| && consumers[c].i < consumers[c].end
    requires x.i == consumers[c].i + 1 && x.end == consumers[c].end
    ensures Unmoved(consumers[c := x], head, i) <==> Unmoved(consumers, head, i) && i != consumers[c].i
    ensures Unmoved(consumers, head, consumers[c].i)
  {
    assert Use(TheConsumers, true);
    var after := consumers[c := x];
    assert RangeOk(consumers[c], input, head);
    assert ToMove(consumers[c], consumers[c].i);
    if d :| 0 <= d < |after| && ToMove(after[d], i) { assert ToMove(consumers[d], i) && (d != c ==> Apart(consumers[d], consumers[c])); }
    if i != consumers[c].i { if d :| 0 <= d < |consumers| && ToMove(consumers[d], i) { assert ToMove(after[d], i); } }
  }

  /** The cells of all other indices stay. */
  lemma DataMove(s: State, g: Ghost, c: nat, x: Consumer, b: nat, block: Block)
    requires InvWith(s, g) && c < |s.consumers| && b < |g.info| && g.info[b].stage.Live? && g.info[b].blk < |s.blocks|
    requires |s.blocks[g.info[b].blk].cells| == BLOCK_SIZE
    requires var i := s.consumers[c].i;
             && i < s.consumers[c].end && i / BLOCK_SIZE == b
             && x.i == i + 1 && x.end == s.consumers[c].end
             && block.cells == s.blocks[g.info[b].blk].cells[i % BLOCK_SIZE := Raw]
    ensures DataInv(s.blocks[g.info[b].blk := block], g.info, s.input, s.consumers[c := x], s.headIndex)
  {
    assert Use(TheData, true);
    var k, blocks' := g.info[b].blk, s.blocks[g.info[b].blk := block];
    forall i | 0 <= i < |s.input|
      ensures i / BLOCK_SIZE < |g.info| && CellOk(blocks', g.info[i / BLOCK_SIZE], i, s.input, s.consumers[c := x], s.headIndex)
    {
      assert CellOk(s.blocks, g.info[i / BLOCK_SIZE], i, s.input, s.consumers, s.headIndex);
      MovedUnmoved(s.consumers, s.ix, g, s.input, s.headIndex, c, x, i);
      if g.info[i / BLOCK_SIZE].stage.Live? && i / BLOCK_SIZE != b { BlocksDiffer(s, g, i / BLOCK_SIZE, b); }
    }
    forall a | 0 <= a < |g.info| ensures AllRaw(blocks', g.info[a]) {
      assert AllRaw(s.blocks, g.info[a]);
      if a != b && !g.info[a].stage.Dead? { BlocksDiffer(s, g, a, b); }
    }
  }

  lemma ProducerMove(s: State, g: Ghost, b: nat, block: Block, i: nat)
    requires InvWith(s, g) && b < |g.info| && g.info[b].stage.Live? && g.info[b].blk < |s.blocks|
    requires i < s.tailIndex && i / BLOCK_SIZE == b && |s.blocks[g.info[b].blk].cells| == BLOCK_SIZE
    requires var old_ := s.blocks[g.info[b].blk];
             block.next == old_.next && block.count == old_.count && block.cells == old_.cells[i % BLOCK_SIZE := Raw]
    ensures ProducerInv(s.producer, s.tailIndex, s.tailBlock, s.blocks[g.info[b].blk := block], s.ix, g)
  {
    var blocks' := s.blocks[g.info[b].blk := block];
    forall x | s.tailIndex <= x ensures SameCell(s.blocks, blocks', g.info, x) {
      if x / BLOCK_SIZE < |g.info| && x / BLOCK_SIZE != b { UncommittedKept(s, g, x / BLOCK_SIZE); BlocksDiffer(s, g, x / BLOCK_SIZE, b); }
    }
    ProducerSame(s.producer, s.tailIndex, s.tailBlock, s.blocks, s.ix, g, blocks');
  }

  /** A block at or after the one of the tail index has not been released. */
  lemma UncommittedKept(s: State, g: Ghost, b: nat)
    requires InvWith(s, g) && b < |g.info| && s.tailIndex < (b + 1) * BLOCK_SIZE
    ensures !g.info[b].stage.Dead?
  {
    assert Use(TheCounts, true);
    assert Counted(s.blocks, g.info[b], b, s.consumers, s.headIndex);
  }

  /** The element moved out is the one enqueued at that index. */
  lemma CellFound(s: State, g: Ghost, c: nat)
    requires InvWith(s, g) && c < |s.consumers| && s.consumers[c].pc.Move? && s.consumers[c].i < EndIndex(s.consumers[c])
    ensures var x := s.consumers[c];
            && x.k < |s.blocks| && |s.blocks[x.k].cells| == BLOCK_SIZE && x.i < |s.input|
            && s.blocks[x.k].cells[x.i % BLOCK_SIZE] == Val(s.input[x.i])
  {
    var x := s.consumers[c];
    ConsumerFacts(s, g, c);
    FoundEntry(s, g, c);
    assert Use(TheData, true);
    assert x.i / BLOCK_SIZE == x.from / BLOCK_SIZE;
    assert CellOk(s.blocks, g.info[x.i / BLOCK_SIZE], x.i, s.input, s.consumers, s.headIndex);
    assert ToMove(x, x.i);
  }

  lemma MovePc(x: Consumer, c: nat, ix: Index, g: Ghost, input: seq<Value>, head: nat)
    requires SlotsOk(ix, g) && PcOk(x, c, ix, g) && RangeOk(x, input, head) && x.pc.Move? && x.i < EndIndex(x)
    ensures var x' := x.(i := x.i + 1, out := x.out + [input[x.i]]); PcOk(x', c, ix, g) && RangeOk(x', input, head)
  {
    var x' := x.(i := x.i + 1, out := x.out + [input[x.i]]);
    assert x'.out == input[x.first..x.i + 1];
    SeesSame(x, x', ix, g);
  }

  /** The element moved out was not delivered before. */
  lemma DeliveriesMove(delivered: seq<Delivery>, ix: Index, g: Ghost, input: seq<Value>, consumers: seq<Consumer>, head: nat, c: nat, x: Consumer)
    requires DeliveriesInv(delivered, input, consumers, head) && ConsumersInv(consumers, ix, g, input, head)
    requires c < |consumers| && consumers[c].i < consumers[c].end && consumers[c].i < |input|
    requires x.i == consumers[c].i + 1 && x.end == consumers[c].end
    ensures DeliveriesInv(delivered + [Delivery(consumers[c].i, input[consumers[c].i])], input, consumers[c := x], head)
  {
    assert Use(TheDeliveries, true);
    var i0 := consumers[c].i;
    var after := delivered + [Delivery(i0, input[i0])];
    MovedUnmoved(consumers, ix, g, input, head, c, x, i0);
    forall p | 0 <= p < |after| ensures DeliveryOk(after[p], input, consumers[c := x], head) {
      if p < |delivered| {
        assert DeliveryOk(delivered[p], input, consumers, head);
        MovedUnmoved(consumers, ix, g, input, head, c, x, delivered[p].i);
      }
    }
    forall i | 0 <= i < head ensures Unmoved(consumers[c := x], head, i) || IsDelivered(after, i) {
      MovedUnmoved(consumers, ix, g, input, head, c, x, i);
      if i == i0 { assert after[|delivered|].i == i; }
      else if IsDelivered(delivered, i) { var p :| 0 <= p < |delivered| && delivered[p].i == i; assert after[p].i == i; }
    }
  }

  /** What a consumer about to move an element knows, and the consumers after the move. */
  lemma MoveConsumers(s: State, g: Ghost, c: nat)
    requires InvWith(s, g) && c < |s.consumers| && s.consumers[c].pc.Move? && s.consumers[c].i < EndIndex(s.consumers[c])
    ensures var x, b := s.consumers[c], s.consumers[c].from / BLOCK_SIZE;
            && b < |g.info| && g.info[b].stage.Live? && x.k == g.info[b].blk && x.i < x.end <= s.tailIndex && x.i / BLOCK_SIZE == b
            && x.i < |s.input|
            && ConsumersInv(s.consumers[c := x.(i := x.i + 1, out := x.out + [s.input[x.i]])], s.ix, g, s.input, s.headIndex)
  {
    var x := s.consumers[c];
    ConsumerFacts(s, g, c);
    FoundEntry(s, g, c);
    MovePc(x, c, s.ix, g, s.input, s.headIndex);
    OneConsumer(s.consumers, s.ix, g, s.input, s.headIndex, c, x.(i := x.i + 1, out := x.out + [s.input[x.i]]));
  }

  lemma KeepMove(s: State, g: Ghost, c: nat)
    requires InvWith(s, g) && c < |s.consumers| && s.consumers[c].pc.Move? && s.consumers[c].i < EndIndex(s.consumers[c])
    ensures s.consumers[c].k < |s.blocks| && |s.blocks[s.consumers[c].k].cells| == BLOCK_SIZE
    ensures InvWith(MoveStep(s, c), g)
  {
    var x := s.consumers[c];
    var b := x.from / BLOCK_SIZE;
    CellFound(s, g, c);
    MoveConsumers(s, g, c);
    var x' := x.(i := x.i + 1, out := x.out + [s.input[x.i]]);
    var block := s.blocks[x.k].(cells := s.blocks[x.k].cells[x.i % BLOCK_SIZE := Raw]);
    BlocksSame(s.blocks, s.holder, g, SpareOf(s.producer), x.k, block);
    CountSame(s.blocks, g.info, s.consumers, s.headIndex, c, x');
    CountBlock(s.blocks, g.info, s.consumers[c := x'], s.headIndex, x.k, block);
    DataMove(s, g, c, x', b, block);
    ProducerMove(s, g, b, block, x.i);
    StagesSame(g.info, Blocks(s.tailIndex), s.consumers, c, x');
    DeliveriesMove(s.delivered, s.ix, g, s.input, s.consumers, s.headIndex, c, x');
    assert MoveStep(s, c) == s.(blocks := s.blocks[x.k := block], delivered := s.delivered + [Delivery(x.i, s.input[x.i])],
                                consumers := s.consumers[c := x']);
  }

  lemma KeepMoveEnd(s: State, g: Ghost, c: nat)
    requires InvWith(s, g) && c < |s.consumers| && s.consumers[c].pc.Move? && s.consumers[c].i >= EndIndex(s.consumers[c])
    ensures s.consumers[c].k < |s.blocks| && |s.blocks[s.consumers[c].k].cells| == BLOCK_SIZE
    ensures InvWith(MoveStep(s, c), g)
  {
    var x := s.consumers[c];
    ConsumerFacts(s, g, c);
    FoundEntry(s, g, c);
    BlockFacts(s, g, x.from / BLOCK_SIZE);
    SeesSame(x, x.(pc := Mark), s.ix, g);
    KeepLook(s, g, c, x.(pc := Mark));
  }

  // ---------------------------------------------------------------------------
  // A block number changes stage

  function WithStage(g: Ghost, b: nat, stage: Stage): Ghost
    requires b < |g.info|
  {
    g.(info := g.info[b := g.info[b].(stage := stage)])
  }

  /** A number that moves on keeps its entry and block. */
  lemma CarriesStage(g: Ghost, b: nat, stage: Stage, n: nat)
    requires b < |g.info| && (b < n ==> Follows(g.info[b], g.info[b].(stage := stage)))
    ensures Carries(g, WithStage(g, b, stage), n)
  {
    forall a | 0 <= a < n && a < |g.info| ensures CarriesAt(g, WithStage(g, b, stage), a) {}
  }

  lemma IndexStage(ix: Index, g: Ghost, committed: nat, pos: int, bound: nat, b: nat, stage: Stage)
    requires IndexInv(ix, g, committed, pos, bound) && b < |g.info| && (Occupies(stage) ==> Occupies(g.info[b].stage))
    requires !stage.Undone?
    ensures IndexInv(ix, WithStage(g, b, stage), committed, pos, bound)
  {
    assert Use(TheIndex, true);
    var g' := WithStage(g, b, stage);
    assert SlotsOk(ix, g');
    forall a | 0 <= a < |g.info| ensures Held(ix, g', a, bound) { assert Held(ix, g, a, bound); }
    if AnyInUse(g'.info, committed) {
      var a :| 0 <= a < committed && a < |g'.info| && Occupies(g'.info[a].stage);
      assert Occupies(g.info[a].stage);
    }
    assert forall a: int :: EntryOf(ix, g', a) == EntryOf(ix, g, a);
  }

  lemma BlocksStage(blocks: seq<Block>, holder: seq<Holder>, g: Ghost, spare: Option<nat>, b: nat, stage: Stage)
    requires BlocksInv(blocks, holder, g, spare) && b < |g.info| && !stage.Dead? && !g.info[b].stage.Dead?
    ensures BlocksInv(blocks, holder, WithStage(g, b, stage), spare)
  {
    assert Use(TheBlocks, true);
    var g' := WithStage(g, b, stage);
    forall k | 0 <= k < |blocks| ensures OwnerOk(k, g', spare) { assert OwnerOk(k, g, spare); }
  }

  lemma ReleasesStage(released: multiset<int>, g: Ghost, b: nat, stage: Stage)
    requires ReleasesInv(released, g.info) && b < |g.info| && !stage.Dead? && !g.info[b].stage.Dead?
    ensures ReleasesInv(released, WithStage(g, b, stage).info)
  {
  }

  /** Consumers that are not the completer of b do not notice. */
  lemma PcStage(x: Consumer, c: nat, ix: Index, g: Ghost, b: nat, stage: Stage)
    requires SlotsOk(ix, g) && PcOk(x, c, ix, g) && b < |g.info| && g.info[b].stage != Closing(c) && g.info[b].stage != Unlinked(c)
    ensures SlotsOk(ix, WithStage(g, b, stage)) && PcOk(x, c, ix, WithStage(g, b, stage))
  {
    var g' := WithStage(g, b, stage);
    assert SlotsOk(ix, g');
    if x.h < |g.shift| && Sees(x, ix, g) { SeesStage(x, ix, g, b, stage); }
  }

  lemma SeesStage(x: Consumer, ix: Index, g: Ghost, b: nat, stage: Stage)
    requires SlotsOk(ix, g) && x.h < |g.shift| && Sees(x, ix, g) && b < |g.info|
    ensures SlotsOk(ix, WithStage(g, b, stage)) && Sees(x, ix, WithStage(g, b, stage))
  {
    var g' := WithStage(g, b, stage);
    assert SlotsOk(ix, g');
    forall a | x.from / BLOCK_SIZE <= a < |g'.info| && a * BLOCK_SIZE < x.end
      ensures EntryIn(ix, g'.shift, x.h, a) == g'.info[a].entry
    {
      assert EntryIn(ix, g.shift, x.h, a) == g.info[a].entry;
    }
  }

  /** Consumer c goes from `x0` to `x`, and block number b to another stage. */
  lemma ConsumersStage(consumers: seq<Consumer>, ix: Index, g: Ghost, input: seq<Value>, head: nat,
                       c: nat, x: Consumer, b: nat, stage: Stage)
    requires ConsumersInv(consumers, ix, g, input, head) && c < |consumers| && b < |g.info|
    requires g.info[b].stage.Live? || g.info[b].stage == Closing(c) || g.info[b].stage == Unlinked(c)
    requires SlotsOk(ix, WithStage(g, b, stage)) && PcOk(x, c, ix, WithStage(g, b, stage)) && RangeOk(x, input, head)
    requires x.end == consumers[c].end && x.i >= consumers[c].i
    ensures ConsumersInv(consumers[c := x], ix, WithStage(g, b, stage), input, head)
  {
    assert Use(TheConsumers, true);
    var after, g' := consumers[c := x], WithStage(g, b, stage);
    forall d | 0 <= d < |after| ensures PcOk(after[d], d, ix, g') {
      if d != c { PcStage(consumers[d], d, ix, g, b, stage); }
    }
    forall d, e | 0 <= d < |after| && 0 <= e < |after| && d != e ensures Apart(after[d], after[e]) {
      assert Apart(consumers[d], consumers[e]);
    }
  }

  lemma OpStage(op: Op, g: Ghost, C: nat, partial: bool, b: nat, stage: Stage)
    requires b < |g.info| && b < C
    ensures OpOk(op, g.info, C, partial) ==> OpOk(op, WithStage(g, b, stage).info, C, partial)
    ensures AllLive(g.info, C) ==> AllLive(WithStage(g, b, stage).info, C)
    ensures forall x: int :: UndoneTo(g.info, C, x) ==> UndoneTo(WithStage(g, b, stage).info, C, x)
  {
  }

  /** The producer looks only at stages of blocks that are not committed. */
  lemma ProducerStage(p: Producer, tail: nat, tailBlock: Option<nat>, blocks: seq<Block>, ix: Index, g: Ghost, b: nat, stage: Stage)
    requires ProducerInv(p, tail, tailBlock, blocks, ix, g) && b < |g.info| && b < Blocks(tail)
    ensures ProducerInv(p, tail, tailBlock, blocks, ix, WithStage(g, b, stage))
  {
    assert Use(TheProducer, true);
    var g', C, partial := WithStage(g, b, stage), Blocks(tail), tail % BLOCK_SIZE != 0;
    assert SlotsOk(ix, g');
    LinksStage(blocks, g, C, partial, b, stage);
    if p.Idle? { return; }
    OpStage(p.op, g, C, partial, b, stage);
    if p.Fill? { FilledStage(blocks, g, tail, p.op.items, p.i, b, stage); }
    if p.Commit? { FilledStage(blocks, g, tail, p.op.items, tail + |p.op.items|, b, stage); }
  }

  lemma LinksStage(blocks: seq<Block>, g: Ghost, C: nat, partial: bool, b: nat, stage: Stage)
    requires b < |g.info|
    ensures Linked(blocks, g.info, C, partial) ==> Linked(blocks, WithStage(g, b, stage).info, C, partial)
  {
    var info' := WithStage(g, b, stage).info;
    if Linked(blocks, g.info, C, partial) {
      forall a | C <= a < |info'| - 1 ensures LinkAt(blocks, info', a) { assert LinkAt(blocks, g.info, a); }
    }
  }

  lemma FilledStage(blocks: seq<Block>, g: Ghost, tail: nat, items: seq<Value>, i: nat, b: nat, stage: Stage)
    requires Filled(blocks, g.info, tail, items, i) && b < |g.info|
    ensures Filled(blocks, WithStage(g, b, stage).info, tail, items, i)
  {
    var info' := WithStage(g, b, stage).info;
    forall x | tail <= x < i ensures FilledAt(blocks, info', tail, items, x) { assert FilledAt(blocks, g.info, tail, items, x); }
  }

  lemma StagesStage(info: seq<Info>, committed: nat, consumers: seq<Consumer>, c: nat, x: Consumer, b: nat, stage: Stage)
    requires StagesInv(info, committed, consumers) && c < |consumers| && b < |info| && b < committed && !stage.Undone?
    requires StageOk(stage, b, consumers[c := x])
    requires forall a :: 0 <= a < |info| && a != b ==> info[a].stage != Closing(c) && info[a].stage != Unlinked(c)
    ensures StagesInv(info[b := info[b].(stage := stage)], committed, consumers[c := x])
  {
    assert Use(TheStages, true);
    var info' := info[b := info[b].(stage := stage)];
    forall a | 0 <= a < |info'| ensures StageOk(info'[a].stage, a, consumers[c := x]) {
      assert StageOk(info[a].stage, a, consumers);
    }
  }

  /** A consumer completes one block at a time. */
  lemma OneCompletion(s: State, g: Ghost, c: nat, a: nat)
    requires InvWith(s, g) && c < |s.consumers| && a < |g.info| && (g.info[a].stage == Closing(c) || g.info[a].stage == Unlinked(c))
    ensures (s.consumers[c].pc.Unlink? || s.consumers[c].pc.Release?) && LastBlock(s.consumers[c]) == a
  {
    assert Use(TheStages, true);
    assert StageOk(g.info[a].stage, a, s.consumers);
  }

  lemma NoOtherCompletion(s: State, g: Ghost, c: nat, b: nat)
    requires InvWith(s, g) && c < |s.consumers|
    requires s.consumers[c].pc.Unlink? || s.consumers[c].pc.Release? ==> LastBlock(s.consumers[c]) == b
    ensures forall a :: 0 <= a < |g.info| && a != b ==> g.info[a].stage != Closing(c) && g.info[a].stage != Unlinked(c)
  {
    forall a | 0 <= a < |g.info| && a != b ensures g.info[a].stage != Closing(c) && g.info[a].stage != Unlinked(c) {
      if g.info[a].stage == Closing(c) || g.info[a].stage == Unlinked(c) { OneCompletion(s, g, c, a); }
    }
  }

  // ---------------------------------------------------------------------------
  // Marking

  /** The consumer's record after marking. */
  function Marked(x: Consumer, full: bool, cap: nat): Consumer
  {
    if full then x.(pc := Unlink, from := x.i) else Continue(x.(from := x.i), cap)
  }

  /** A consumer that marks its part of block b has nothing of it left; of others as before. */
  lemma MarkedPend(x0: Consumer, x: Consumer, a: nat)
    requires x.end == x0.end && x.from == EndIndex(x0) && x0.from < x0.end
    ensures Pend(x, a) == if a == x0.from / BLOCK_SIZE then Pend(x0, a) - (x.from - x0.from) else Pend(x0, a)
  {
  }

  /** The count plus what consumers still have of the block. */
  lemma CountMark(blocks: seq<Block>, info: seq<Info>, consumers: seq<Consumer>, head: nat, c: nat, x: Consumer, b: nat, block: Block)
    requires CountInv(blocks, info, consumers, head) && c < |consumers| && b < |info| && info[b].stage.Live? && info[b].blk < |blocks|
    requires forall a :: 0 <= a < |info| && a != b && info[a].stage.Live? ==> info[a].blk != info[b].blk
    requires var x0 := consumers[c];
             && x.end == x0.end && x.from == EndIndex(x0) && x0.from < x0.end && x0.from / BLOCK_SIZE == b
             && block.count == blocks[info[b].blk].count + (x.from - x0.from)
    ensures block.count <= BLOCK_SIZE
    ensures var stage := if block.count == BLOCK_SIZE then Closing(c) else Live;
            CountInv(blocks[info[b].blk := block], info[b := info[b].(stage := stage)], consumers[c := x], head)
  {
    assert Use(TheCounts, true);
    var stage := if block.count == BLOCK_SIZE then Closing(c) else Live;
    var info', blocks' := info[b := info[b].(stage := stage)], blocks[info[b].blk := block];
    assert Counted(blocks, info[b], b, consumers, head);
    PendUpdate(consumers, c, x, b);
    MarkedPend(consumers[c], x, b);
    forall a | 0 <= a < |info'| && a != b ensures Counted(blocks', info'[a], a, consumers[c := x], head) {
      assert Counted(blocks, info[a], a, consumers, head);
      PendUpdate(consumers, c, x, a);
      MarkedPend(consumers[c], x, a);
    }
    assert Counted(blocks', info'[b], b, consumers[c := x], head);
  }

  lemma DataMark(s: State, g: Ghost, blocks': seq<Block>, consumers': seq<Consumer>, b: nat, stage: Stage)
    requires InvWith(s, g) && b < |g.info| && g.info[b].stage.Live? && |blocks'| == |s.blocks|
    requires forall k :: 0 <= k < |blocks'| ==> blocks'[k].cells == s.blocks[k].cells
    requires forall i: nat :: Unmoved(consumers', s.headIndex, i) <==> Unmoved(s.consumers, s.headIndex, i)
    requires stage.Live? || (stage.Closing? && (b + 1) * BLOCK_SIZE <= |s.input|
                && forall i :: b * BLOCK_SIZE <= i < (b + 1) * BLOCK_SIZE ==> !Unmoved(s.consumers, s.headIndex, i))
    ensures DataInv(blocks', g.info[b := g.info[b].(stage := stage)], s.input, consumers', s.headIndex)
  {
    assert Use(TheData, true);
    var info' := g.info[b := g.info[b].(stage := stage)];
    forall i | 0 <= i < |s.input|
      ensures i / BLOCK_SIZE < |info'| && CellOk(blocks', info'[i / BLOCK_SIZE], i, s.input, consumers', s.headIndex)
    {
      assert CellOk(s.blocks, g.info[i / BLOCK_SIZE], i, s.input, s.consumers, s.headIndex);
    }
    forall a | 0 <= a < |info'| ensures AllRaw(blocks', info'[a]) {
      assert AllRaw(s.blocks, g.info[a]);
      if a == b && stage.Closing? { CellsRaw(s, g, b); }
    }
  }

  lemma CellsRaw(s: State, g: Ghost, b: nat)
    requires InvWith(s, g) && b < |g.info| && g.info[b].stage.Live? && (b + 1) * BLOCK_SIZE <= |s.input|
    requires forall i :: b * BLOCK_SIZE <= i < (b + 1) * BLOCK_SIZE ==> !Unmoved(s.consumers, s.headIndex, i)
    ensures g.info[b].blk < |s.blocks|
    ensures forall o :: 0 <= o < |s.blocks[g.info[b].blk].cells| ==> s.blocks[g.info[b].blk].cells[o].Raw?
  {
    BlockFacts(s, g, b);
    assert Use(TheData, true);
    forall o | 0 <= o < BLOCK_SIZE ensures s.blocks[g.info[b].blk].cells[o].Raw? {
      var i := b * BLOCK_SIZE + o;
      assert i / BLOCK_SIZE == b && i % BLOCK_SIZE == o;
      assert CellOk(s.blocks, g.info[i / BLOCK_SIZE], i, s.input, s.consumers, s.headIndex);
    }
  }

  /** After marking: at the completer's point, done, or at the next block one slot further. */
  lemma MarkPc(x: Consumer, c: nat, ix: Index, g: Ghost, full: bool)
    requires SlotsOk(ix, g) && PcOk(x, c, ix, g) && x.pc.Mark? && x.i <= x.end
    ensures var g' := WithStage(g, x.from / BLOCK_SIZE, if full then Closing(c) else Live);
            SlotsOk(ix, g') && PcOk(Marked(x, full, |ix.headers[x.h].index|), c, ix, g')
  {
    var b, cap := x.from / BLOCK_SIZE, |ix.headers[x.h].index|;
    var stage := if full then Closing(c) else Live;
    var g', x' := WithStage(g, b, stage), Marked(x, full, cap);
    assert SlotsOk(ix, g');
    SeesSame(x, x', ix, g);
    SeesStage(x', ix, g, b, stage);
    assert LastBlock(x) == b && EntryIn(ix, g.shift, x.h, b) == g.info[b].entry;
    WalkStep(cap, g.shift[x.h], b);
  }

  /** Marking does not change what is still to be moved out. */
  lemma UnmovedMark(s: State, c: nat, x: Consumer)
    requires c < |s.consumers| && x.i == s.consumers[c].i && x.end == s.consumers[c].end
    ensures forall i: nat :: Unmoved(s.consumers[c := x], s.headIndex, i) <==> Unmoved(s.consumers, s.headIndex, i)
  {
    forall i: nat ensures Unmoved(s.consumers[c := x], s.headIndex, i) <==> Unmoved(s.consumers, s.headIndex, i) {
      UnmovedSame(s.consumers, s.headIndex, c, x, i);
    }
  }

  /** What set_many_empty leaves behind. */
  lemma MarkCounts(s: State, g: Ghost, c: nat, x: Consumer, b: nat, block: Block)
    requires InvWith(s, g) && c < |s.consumers| && b < |g.info| && g.info[b].stage.Live? && g.info[b].blk < |s.blocks|
    requires var x0 := s.consumers[c];
             && x.end == x0.end && x.from == EndIndex(x0) == x.i == x0.i && x0.from < x0.end && x0.from / BLOCK_SIZE == b
             && block == s.blocks[g.info[b].blk].(count := s.blocks[g.info[b].blk].count + (x.from - x0.from))
    ensures block.count <= BLOCK_SIZE
    ensures var stage := if block.count == BLOCK_SIZE then Closing(c) else Live;
            && CountInv(s.blocks[g.info[b].blk := block], WithStage(g, b, stage).info, s.consumers[c := x], s.headIndex)
            && DataInv(s.blocks[g.info[b].blk := block], WithStage(g, b, stage).info, s.input, s.consumers[c := x], s.headIndex)
  {
    var stage := if block.count == BLOCK_SIZE then Closing(c) else Live;
    var after, blocks' := s.consumers[c := x], s.blocks[g.info[b].blk := block];
    forall a | 0 <= a < |g.info| && a != b && g.info[a].stage.Live? ensures g.info[a].blk != g.info[b].blk { BlocksDiffer(s, g, a, b); }
    CountMark(s.blocks, g.info, s.consumers, s.headIndex, c, x, b, block);
    UnmovedMark(s, c, x);
    if block.count == BLOCK_SIZE { FullBlock(s, g, c, x, b, blocks'); }
    DataMark(s, g, blocks', after, b, stage);
  }

  /** A complete count: the block is claimed whole and nothing is left to move. */
  lemma FullBlock(s: State, g: Ghost, c: nat, x: Consumer, b: nat, blocks': seq<Block>)
    requires InvWith(s, g) && c < |s.consumers| && b < |g.info|
    requires x.i == s.consumers[c].i && x.end == s.consumers[c].end && x.from == x.i
    requires CountInv(blocks', WithStage(g, b, Closing(c)).info, s.consumers[c := x], s.headIndex)
    ensures (b + 1) * BLOCK_SIZE <= |s.input|
    ensures forall i :: b * BLOCK_SIZE <= i < (b + 1) * BLOCK_SIZE ==> !Unmoved(s.consumers, s.headIndex, i)
  {
    assert Use(TheCounts, true);
    var after := s.consumers[c := x];
    assert Counted(blocks', WithStage(g, b, Closing(c)).info[b], b, after, s.headIndex);
    forall i | b * BLOCK_SIZE <= i < (b + 1) * BLOCK_SIZE ensures !Unmoved(s.consumers, s.headIndex, i) {
      NothingLeft(s, g, c, x, b, i);
    }
  }

  lemma NothingLeft(s: State, g: Ghost, c: nat, x: Consumer, b: nat, i: nat)
    requires InvWith(s, g) && c < |s.consumers| && x.i == s.consumers[c].i && x.end == s.consumers[c].end && x.from == x.i
    requires Sum(s.consumers[c := x], PendFn(b)) == 0 && s.headIndex >= (b + 1) * BLOCK_SIZE
    requires b * BLOCK_SIZE <= i < (b + 1) * BLOCK_SIZE
    ensures !Unmoved(s.consumers, s.headIndex, i)
  {
    var after := s.consumers[c := x];
    if d :| 0 <= d < |s.consumers| && ToMove(s.consumers[d], i) {
      ConsumerFacts(s, g, d);
      SumMember(after, d, PendFn(b));
    }
  }

  /** What a consumer about to mark knows. */
  lemma MarkFacts(s: State, g: Ghost, c: nat)
    requires InvWith(s, g) && c < |s.consumers| && s.consumers[c].pc.Mark?
    ensures var x, b := s.consumers[c], s.consumers[c].from / BLOCK_SIZE;
            && x.h < |s.ix.headers| && x.from < x.end && x.from <= x.i == EndIndex(x)
            && b < |g.info| && b < Blocks(s.tailIndex) && g.info[b].stage.Live? && x.k == g.info[b].blk < |s.blocks|
  {
    var x, b := s.consumers[c], s.consumers[c].from / BLOCK_SIZE;
    ConsumerFacts(s, g, c);
    AtPending(x, c, s.ix, g);
    PendingIsLive(s, g, c, b);
    BlockFacts(s, g, b);
  }

  lemma KeepMark(s: State, g: Ghost, c: nat) returns (g': Ghost)
    requires InvWith(s, g) && c < |s.consumers| && s.consumers[c].pc.Mark?
    ensures s.consumers[c].k < |s.blocks| && s.consumers[c].h < |s.ix.headers| && s.consumers[c].from <= s.consumers[c].i
    ensures InvWith(MarkStep(s, c), g')
    ensures Carries(g, g', Blocks(s.tailIndex))
  {
    MarkFacts(s, g, c);
    var x, b := s.consumers[c], s.consumers[c].from / BLOCK_SIZE;
    var block := s.blocks[x.k].(count := s.blocks[x.k].count + (x.i - x.from));
    var stage := if block.count == BLOCK_SIZE then Closing(c) else Live;
    var x' := Marked(x, block.count == BLOCK_SIZE, |s.ix.headers[x.h].index|);
    g' := WithStage(g, b, stage);
    MarkCounts(s, g, c, x', b, block);
    MarkConsumers(s, g, c, block.count == BLOCK_SIZE);
    MarkRest(s, g, b, stage, block);
    ReleasesStage(s.released, g, b, stage);
    CarriesStage(g, b, stage, Blocks(s.tailIndex));
    DeliveriesSame(s.delivered, s.input, s.consumers, s.headIndex, c, x');
    MarkShape(s, c, block, x');
  }

  lemma MarkShape(s: State, c: nat, block: Block, x': Consumer)
    requires c < |s.consumers| && s.consumers[c].k < |s.blocks| && s.consumers[c].h < |s.ix.headers|
    requires s.consumers[c].from <= s.consumers[c].i
    requires var x := s.consumers[c];
             && block == s.blocks[x.k].(count := s.blocks[x.k].count + (x.i - x.from))
             && x' == Marked(x, block.count == BLOCK_SIZE, |s.ix.headers[x.h].index|)
    ensures MarkStep(s, c) == s.(blocks := s.blocks[s.consumers[c].k := block], consumers := s.consumers[c := x'])
  {
  }

  /** The consumers and stages after a mark. */
  lemma MarkConsumers(s: State, g: Ghost, c: nat, full: bool)
    requires InvWith(s, g) && c < |s.consumers| && s.consumers[c].pc.Mark? && s.consumers[c].h < |s.ix.headers|
    requires var b := s.consumers[c].from / BLOCK_SIZE; b < |g.info| && g.info[b].stage.Live? && b < Blocks(s.tailIndex)
    ensures var x := Marked(s.consumers[c], full, |s.ix.headers[s.consumers[c].h].index|);
            var g' := WithStage(g, s.consumers[c].from / BLOCK_SIZE, if full then Closing(c) else Live);
            && StagesInv(g'.info, Blocks(s.tailIndex), s.consumers[c := x])
            && ConsumersInv(s.consumers[c := x], s.ix, g', s.input, s.headIndex)
  {
    var x0, b, stage := s.consumers[c], s.consumers[c].from / BLOCK_SIZE, if full then Closing(c) else Live;
    var x := Marked(x0, full, |s.ix.headers[x0.h].index|);
    ConsumerFacts(s, g, c);
    MarkPc(x0, c, s.ix, g, full);
    NoOtherCompletion(s, g, c, b);
    StagesStage(g.info, Blocks(s.tailIndex), s.consumers, c, x, b, stage);
    ConsumersStage(s.consumers, s.ix, g, s.input, s.headIndex, c, x, b, stage);
  }

  /** The parts of the invariant that look at neither counts nor cells. */
  lemma MarkRest(s: State, g: Ghost, b: nat, stage: Stage, block: Block)
    requires InvWith(s, g) && b < |g.info| && g.info[b].stage.Live? && b < Blocks(s.tailIndex) && g.info[b].blk < |s.blocks|
    requires block == s.blocks[g.info[b].blk].(count := block.count) && (stage.Live? || stage.Closing?)
    ensures var g', C := WithStage(g, b, stage), Blocks(s.tailIndex);
            && IndexInv(s.ix, g', C, Pos(s.producer, |g.info|, C), |g.info| + PendingCount(s.producer))
            && BlocksInv(s.blocks[g.info[b].blk := block], s.holder, g', SpareOf(s.producer))
            && ProducerInv(s.producer, s.tailIndex, s.tailBlock, s.blocks[g.info[b].blk := block], s.ix, g')
  {
    var C, k := Blocks(s.tailIndex), g.info[b].blk;
    BlockFacts(s, g, b);
    IndexStage(s.ix, g, C, Pos(s.producer, |g.info|, C), |g.info| + PendingCount(s.producer), b, stage);
    BlocksSame(s.blocks, s.holder, g, SpareOf(s.producer), k, block);
    BlocksStage(s.blocks[k := block], s.holder, g, SpareOf(s.producer), b, stage);
    ProducerCount(s, g, b, block);
    ProducerStage(s.producer, s.tailIndex, s.tailBlock, s.blocks[k := block], s.ix, g, b, stage);
  }

  lemma ProducerCount(s: State, g: Ghost, b: nat, block: Block)
    requires InvWith(s, g) && b < |g.info| && !g.info[b].stage.Dead? && g.info[b].blk < |s.blocks|
    requires block == s.blocks[g.info[b].blk].(count := block.count)
    ensures ProducerInv(s.producer, s.tailIndex, s.tailBlock, s.blocks[g.info[b].blk := block], s.ix, g)
  {
    BlockFacts(s, g, b);
    if s.producer.StoreValue? { assert Use(TheBlocks, true); }
    ProducerSame(s.producer, s.tailIndex, s.tailBlock, s.blocks, s.ix, g, s.blocks[g.info[b].blk := block]);
  }

  // ---------------------------------------------------------------------------
  // Clearing an entry

  lemma SlotsValue(ix: Index, g: Ghost, e: nat, v: Option<nat>)
    requires SlotsOk(ix, g) && e < |ix.entries|
    ensures SlotsOk(SetValue(ix, e, v), g)
    ensures forall b: int :: EntryNow(SetValue(ix, e, v), g.shift, b) == EntryNow(ix, g.shift, b)
  {
    SetValueSlotted(ix, g.shift, e, v);
    var ix', h := SetValue(ix, e, v), Cur(ix);
    forall j | 0 <= j < |h.index| ensures KeyWithin(ix'.entries[h.index[j]].key, g.high - |h.index|, g.high) {
      assert KeyWithin(ix.entries[h.index[j]].key, g.high - |h.index|, g.high);
    }
  }

  /** Clearing an entry that no block in use has. */
  lemma IndexClear(ix: Index, g: Ghost, committed: nat, pos: int, bound: nat, e: nat)
    requires IndexInv(ix, g, committed, pos, bound) && e < |ix.entries|
    requires forall b :: 0 <= b < |g.info| && Occupies(g.info[b].stage) ==> g.info[b].entry != e
    ensures IndexInv(SetValue(ix, e, None), g, committed, pos, bound)
  {
    assert Use(TheIndex, true);
    var ix' := SetValue(ix, e, None);
    SlotsValue(ix, g, e, None);
    forall b | 0 <= b < |g.info| ensures Held(ix', g, b, bound) { assert Held(ix, g, b, bound); }
    forall b | committed <= b < bound ensures EntryOf(ix', g, b).key == Some(b) { assert EntryOf(ix, g, b).key == Some(b); }
    forall b | bound <= b < g.high ensures EntryOf(ix', g, b) == Entry(Some(b), None) {
      assert EntryOf(ix, g, b) == Entry(Some(b), None);
    }
    forall b | 0 <= b < |g.info| && g.info[b].stage.Undone? ensures EntryOf(ix', g, b).value.None? {
      assert EntryOf(ix, g, b).value.None?;
    }
  }

  /** Consumers look up keys and slots, which do not change. */
  lemma PcValue(x: Consumer, c: nat, ix: Index, g: Ghost, e: nat, v: Option<nat>)
    requires SlotsOk(ix, g) && PcOk(x, c, ix, g) && e < |ix.entries|
    ensures SlotsOk(SetValue(ix, e, v), g) && PcOk(x, c, SetValue(ix, e, v), g)
  {
    SlotsValue(ix, g, e, v);
    var ix' := SetValue(ix, e, v);
    if x.h < |g.shift| {
      assert forall b: int :: EntryIn(ix', g.shift, x.h, b) == EntryIn(ix, g.shift, x.h, b);
      assert forall t: nat :: t < |ix.headers[x.h].index| ==> KeyAt(ix', x.h, t) == KeyAt(ix, x.h, t);
      assert Sees(x, ix, g) ==> Sees(x, ix', g);
    }
  }

  lemma ConsumersValue(consumers: seq<Consumer>, ix: Index, g: Ghost, input: seq<Value>, head: nat, e: nat, v: Option<nat>)
    requires ConsumersInv(consumers, ix, g, input, head) && e < |ix.entries|
    ensures ConsumersInv(consumers, SetValue(ix, e, v), g, input, head)
  {
    assert Use(TheConsumers, true);
    SlotsValue(ix, g, e, v);
    forall d | 0 <= d < |consumers| ensures PcOk(consumers[d], d, SetValue(ix, e, v), g) { PcValue(consumers[d], d, ix, g, e, v); }
  }

  lemma ProducerClear(p: Producer, tail: nat, tailBlock: Option<nat>, blocks: seq<Block>, ix: Index, g: Ghost, e: nat)
    requires ProducerInv(p, tail, tailBlock, blocks, ix, g) && e < |ix.entries|
    ensures ProducerInv(p, tail, tailBlock, blocks, SetValue(ix, e, None), g)
  {
    assert Use(TheProducer, true);
    SlotsValue(ix, g, e, None);
  }

  /** The completer's entry belongs to its block number and to no other in use. */
  lemma CompleterEntry(s: State, g: Ghost, c: nat)
    requires InvWith(s, g) && c < |s.consumers| && s.consumers[c].pc.Unlink?
    ensures var x, b := s.consumers[c], LastBlock(s.consumers[c]);
            && IndexOk(s.ix) && x.h < |s.ix.headers| && x.j < |s.ix.headers[x.h].index| && 0 <= b < |g.info|
            && g.info[b].stage == Closing(c) && EntryAt(s, x) == g.info[b].entry
            && s.ix.entries[EntryAt(s, x)] == Entry(Some(b), Some(g.info[b].blk))
            && (forall a :: 0 <= a < |g.info| && a != b && Occupies(g.info[a].stage) ==> g.info[a].entry != g.info[b].entry)
  {
    var x, b := s.consumers[c], LastBlock(s.consumers[c]);
    ConsumerFacts(s, g, c);
    WalkBound(|s.ix.headers[x.h].index|, g.shift[x.h], b);
    assert Use(TheIndex, true);
    assert Held(s.ix, g, b, |g.info| + PendingCount(s.producer));
    forall a | 0 <= a < |g.info| && a != b && Occupies(g.info[a].stage) ensures g.info[a].entry != g.info[b].entry {
      assert Held(s.ix, g, a, |g.info| + PendingCount(s.producer));
    }
  }

  lemma UnlinkPc(x: Consumer, c: nat, ix: Index, g: Ghost)
    requires SlotsOk(ix, g) && PcOk(x, c, ix, g) && x.pc.Unlink?
    ensures var g' := WithStage(g, LastBlock(x), Unlinked(c)); SlotsOk(ix, g') && PcOk(x.(pc := Release), c, ix, g')
  {
    SeesSame(x, x.(pc := Release), ix, g);
    SeesStage(x.(pc := Release), ix, g, LastBlock(x), Unlinked(c));
  }

  /** A committed block that is past its use goes to its next stage; nobody but its completer
      is concerned. */
  lemma CountStage(blocks: seq<Block>, info: seq<Info>, consumers: seq<Consumer>, head: nat, b: nat, stage: Stage)
    requires CountInv(blocks, info, consumers, head) && b < |info| && (info[b].stage.Closing? || info[b].stage.Unlinked?)
    requires stage.Unlinked? || stage.Dead?
    ensures CountInv(blocks, info[b := info[b].(stage := stage)], consumers, head)
  {
    assert Use(TheCounts, true);
    var info' := info[b := info[b].(stage := stage)];
    forall a | 0 <= a < |info'| ensures Counted(blocks, info'[a], a, consumers, head) {
      assert Counted(blocks, info[a], a, consumers, head);
    }
  }

  lemma DataStage(blocks: seq<Block>, info: seq<Info>, input: seq<Value>, consumers: seq<Consumer>, head: nat, b: nat, stage: Stage)
    requires DataInv(blocks, info, input, consumers, head) && b < |info| && (info[b].stage.Closing? || info[b].stage.Unlinked?)
    requires stage.Unlinked? || stage.Dead?
    ensures DataInv(blocks, info[b := info[b].(stage := stage)], input, consumers, head)
  {
    assert Use(TheData, true);
    var info' := info[b := info[b].(stage := stage)];
    forall i | 0 <= i < |input|
      ensures i / BLOCK_SIZE < |info'| && CellOk(blocks, info'[i / BLOCK_SIZE], i, input, consumers, head)
    {
      assert CellOk(blocks, info[i / BLOCK_SIZE], i, input, consumers, head);
    }
    forall a | 0 <= a < |info'| ensures AllRaw(blocks, info'[a]) { assert AllRaw(blocks, info[a]); }
  }

  /** The parts common to unlinking and releasing. */
  lemma CompleterRest(s: State, g: Ghost, c: nat, x: Consumer, b: nat, stage: Stage)
    requires InvWith(s, g) && c < |s.consumers| && (s.consumers[c].pc.Unlink? || s.consumers[c].pc.Release?)
    requires b == LastBlock(s.consumers[c]) && b < |g.info| && (g.info[b].stage == Closing(c) || g.info[b].stage == Unlinked(c))
    requires SameRange(s.consumers[c], x) && (stage.Dead? || (stage == Unlinked(c) && x.pc.Release?))
    requires SlotsOk(s.ix, WithStage(g, b, stage)) && PcOk(x, c, s.ix, WithStage(g, b, stage))
    ensures var g', after, C := WithStage(g, b, stage), s.consumers[c := x], Blocks(s.tailIndex);
            && b < C
            && IndexInv(s.ix, g', C, Pos(s.producer, |g.info|, C), |g.info| + PendingCount(s.producer))
            && CountInv(s.blocks, g'.info, after, s.headIndex)
            && StagesInv(g'.info, C, after)
            && ConsumersInv(after, s.ix, g', s.input, s.headIndex)
            && DataInv(s.blocks, g'.info, s.input, after, s.headIndex)
            && ProducerInv(s.producer, s.tailIndex, s.tailBlock, s.blocks, s.ix, g')
  {
    var C := Blocks(s.tailIndex);
    CompleterConsumers(s, g, c, x, b, stage);
    IndexStage(s.ix, g, C, Pos(s.producer, |g.info|, C), |g.info| + PendingCount(s.producer), b, stage);
    CountStage(s.blocks, g.info, s.consumers, s.headIndex, b, stage);
    CountSame(s.blocks, WithStage(g, b, stage).info, s.consumers, s.headIndex, c, x);
    DataStage(s.blocks, g.info, s.input, s.consumers, s.headIndex, b, stage);
    DataSame(s.blocks, WithStage(g, b, stage).info, s.input, s.consumers, s.headIndex, c, x);
    ProducerStage(s.producer, s.tailIndex, s.tailBlock, s.blocks, s.ix, g, b, stage);
  }

  lemma CompleterConsumers(s: State, g: Ghost, c: nat, x: Consumer, b: nat, stage: Stage)
    requires InvWith(s, g) && c < |s.consumers| && (s.consumers[c].pc.Unlink? || s.consumers[c].pc.Release?)
    requires b == LastBlock(s.consumers[c]) && b < |g.info| && (g.info[b].stage == Closing(c) || g.info[b].stage == Unlinked(c))
    requires SameRange(s.consumers[c], x) && (stage.Dead? || (stage == Unlinked(c) && x.pc.Release?))
    requires SlotsOk(s.ix, WithStage(g, b, stage)) && PcOk(x, c, s.ix, WithStage(g, b, stage))
    ensures b < Blocks(s.tailIndex)
    ensures StagesInv(WithStage(g, b, stage).info, Blocks(s.tailIndex), s.consumers[c := x])
    ensures ConsumersInv(s.consumers[c := x], s.ix, WithStage(g, b, stage), s.input, s.headIndex)
  {
    ConsumerFacts(s, g, c);
    NoOtherCompletion(s, g, c, b);
    StagesStage(g.info, Blocks(s.tailIndex), s.consumers, c, x, b, stage);
    ConsumersStage(s.consumers, s.ix, g, s.input, s.headIndex, c, x, b, stage);
  }

  lemma UnlinkRest(s: State, g: Ghost, c: nat)
    requires InvWith(s, g) && c < |s.consumers| && s.consumers[c].pc.Unlink?
    requires 0 <= LastBlock(s.consumers[c]) < |g.info| && g.info[LastBlock(s.consumers[c])].stage == Closing(c)
    ensures var g', after, C := WithStage(g, LastBlock(s.consumers[c]), Unlinked(c)), s.consumers[c := s.consumers[c].(pc := Release)], Blocks(s.tailIndex);
            && IndexInv(s.ix, g', C, Pos(s.producer, |g.info|, C), |g.info| + PendingCount(s.producer))
            && CountInv(s.blocks, g'.info, after, s.headIndex)
            && StagesInv(g'.info, C, after)
            && ConsumersInv(after, s.ix, g', s.input, s.headIndex)
            && DataInv(s.blocks, g'.info, s.input, after, s.headIndex)
            && ProducerInv(s.producer, s.tailIndex, s.tailBlock, s.blocks, s.ix, g')
  {
    ConsumerFacts(s, g, c);
    UnlinkPc(s.consumers[c], c, s.ix, g);
    CompleterRest(s, g, c, s.consumers[c].(pc := Release), LastBlock(s.consumers[c]), Unlinked(c));
  }

  /** The parts that see the entry cleared. */
  lemma UnlinkClear(s: State, g: Ghost, consumers: seq<Consumer>, e: nat)
    requires var C := Blocks(s.tailIndex); IndexInv(s.ix, g, C, Pos(s.producer, |g.info|, C), |g.info| + PendingCount(s.producer))
    requires ConsumersInv(consumers, s.ix, g, s.input, s.headIndex) && e < |s.ix.entries|
    requires ProducerInv(s.producer, s.tailIndex, s.tailBlock, s.blocks, s.ix, g)
    requires forall b :: 0 <= b < |g.info| && Occupies(g.info[b].stage) ==> g.info[b].entry != e
    ensures var C, ix := Blocks(s.tailIndex), SetValue(s.ix, e, None);
            && IndexInv(ix, g, C, Pos(s.producer, |g.info|, C), |g.info| + PendingCount(s.producer))
            && ConsumersInv(consumers, ix, g, s.input, s.headIndex)
            && ProducerInv(s.producer, s.tailIndex, s.tailBlock, s.blocks, ix, g)
  {
    var C := Blocks(s.tailIndex);
    IndexClear(s.ix, g, C, Pos(s.producer, |g.info|, C), |g.info| + PendingCount(s.producer), e);
    ConsumersValue(consumers, s.ix, g, s.input, s.headIndex, e, None);
    ProducerClear(s.producer, s.tailIndex, s.tailBlock, s.blocks, s.ix, g, e);
  }

  lemma KeepUnlink(s: State, g: Ghost, c: nat) returns (g': Ghost)
    requires InvWith(s, g) && c < |s.consumers| && s.consumers[c].pc.Unlink?
    ensures IndexOk(s.ix) && s.consumers[c].h < |s.ix.headers| && s.consumers[c].j < |s.ix.headers[s.consumers[c].h].index|
    ensures InvWith(UnlinkStep(s, c), g')
    ensures Carries(g, g', Blocks(s.tailIndex))
  {
    CompleterEntry(s, g, c);
    g' := WithStage(g, LastBlock(s.consumers[c]), Unlinked(c));
    CarriesStage(g, LastBlock(s.consumers[c]), Unlinked(c), Blocks(s.tailIndex));
    UnlinkJoin(s, g, c, LastBlock(s.consumers[c]), EntryAt(s, s.consumers[c]));
    UnlinkShape(s, c);
  }

  lemma UnlinkJoin(s: State, g: Ghost, c: nat, b: nat, e: nat)
    requires InvWith(s, g) && c < |s.consumers| && s.consumers[c].pc.Unlink? && b == LastBlock(s.consumers[c])
    requires b < |g.info| && g.info[b].stage == Closing(c) && e < |s.ix.entries|
    requires forall a :: 0 <= a < |g.info| && a != b && Occupies(g.info[a].stage) ==> g.info[a].entry != e
    ensures InvWith(s.(ix := SetValue(s.ix, e, None), consumers := s.consumers[c := s.consumers[c].(pc := Release)]), WithStage(g, b, Unlinked(c)))
  {
    var x := s.consumers[c].(pc := Release);
    UnlinkRest(s, g, c);
    UnlinkClear(s, WithStage(g, b, Unlinked(c)), s.consumers[c := x], e);
    BlocksStage(s.blocks, s.holder, g, SpareOf(s.producer), b, Unlinked(c));
    ReleasesStage(s.released, g, b, Unlinked(c));
    DeliveriesSame(s.delivered, s.input, s.consumers, s.headIndex, c, x);
    JoinParts(s, g, SetValue(s.ix, e, None), s.consumers[c := x], WithStage(g, b, Unlinked(c)));
  }

  /** The parts make up the invariant when the index, the consumers and the stages have changed. */
  lemma JoinParts(s: State, g: Ghost, ix: Index, consumers: seq<Consumer>, g': Ghost)
    requires InvWith(s, g) && |g'.info| == |g.info|
    requires var C := Blocks(s.tailIndex); IndexInv(ix, g', C, Pos(s.producer, |g.info|, C), |g.info| + PendingCount(s.producer))
    requires BlocksInv(s.blocks, s.holder, g', SpareOf(s.producer)) && CountInv(s.blocks, g'.info, consumers, s.headIndex)
    requires StagesInv(g'.info, Blocks(s.tailIndex), consumers) && ConsumersInv(consumers, ix, g', s.input, s.headIndex)
    requires DataInv(s.blocks, g'.info, s.input, consumers, s.headIndex) && ReleasesInv(s.released, g'.info)
    requires ProducerInv(s.producer, s.tailIndex, s.tailBlock, s.blocks, ix, g')
    requires DeliveriesInv(s.delivered, s.input, consumers, s.headIndex)
    ensures InvWith(s.(ix := ix, consumers := consumers), g')
  {
  }

  lemma UnlinkShape(s: State, c: nat)
    requires c < |s.consumers| && IndexOk(s.ix)
    requires s.consumers[c].h < |s.ix.headers| && s.consumers[c].j < |s.ix.headers[s.consumers[c].h].index|
    ensures var x := s.consumers[c];
            UnlinkStep(s, c) == s.(ix := SetValue(s.ix, EntryAt(s, x), None), consumers := s.consumers[c := x.(pc := Release)])
  {
  }

  // ---------------------------------------------------------------------------
  // Releasing a block

  function Released(g: Ghost, b: nat): Ghost
    requires b < |g.info| && g.info[b].blk < |g.owner|
  {
    WithStage(g, b, Dead).(owner := g.owner[g.info[b].blk := NotOurs])
  }

  lemma BlocksRelease(blocks: seq<Block>, holder: seq<Holder>, g: Ghost, spare: Option<nat>, b: nat)
    requires BlocksInv(blocks, holder, g, spare) && b < |g.info| && !g.info[b].stage.Dead?
    ensures g.info[b].blk < |g.owner| && g.info[b].blk < |holder|
    ensures BlocksInv(blocks, holder[g.info[b].blk := Pool], Released(g, b), spare)
  {
    assert Use(TheBlocks, true);
    var k := g.info[b].blk;
    var g' := Released(g, b);
    assert g.owner[k] == Of(b);
    forall j | 0 <= j < |blocks| ensures OwnerOk(j, g', spare) { assert OwnerOk(j, g, spare); }
  }

  lemma ReleasePc(x: Consumer, c: nat, ix: Index, g: Ghost)
    requires SlotsOk(ix, g) && PcOk(x, c, ix, g) && x.pc.Release? && x.i <= x.end
    ensures var g' := WithStage(g, LastBlock(x), Dead);
            SlotsOk(ix, g') && PcOk(Continue(x, |ix.headers[x.h].index|), c, ix, g')
  {
    var b, cap := LastBlock(x), |ix.headers[x.h].index|;
    var x' := Continue(x, cap);
    SeesSame(x, x', ix, g);
    SeesStage(x', ix, g, b, Dead);
    WalkStep(cap, g.shift[x.h], b);
  }

  /** Which blocks are whose matters to nothing but the blocks. */
  lemma IndexApart(ix: Index, g: Ghost, committed: nat, pos: int, bound: nat, g': Ghost)
    requires IndexInv(ix, g, committed, pos, bound) && g'.shift == g.shift && g'.high == g.high && g'.info == g.info
    ensures IndexInv(ix, g', committed, pos, bound)
  {
    assert Use(TheIndex, true);
    assert SlotsOk(ix, g');
    forall b | 0 <= b < |g.info| ensures Held(ix, g', b, bound) { assert Held(ix, g, b, bound); }
    assert forall b: int :: EntryOf(ix, g', b) == EntryOf(ix, g, b);
  }

  lemma ConsumersApart(consumers: seq<Consumer>, ix: Index, g: Ghost, input: seq<Value>, head: nat, g': Ghost)
    requires ConsumersInv(consumers, ix, g, input, head) && g'.shift == g.shift && g'.high == g.high && g'.info == g.info
    ensures ConsumersInv(consumers, ix, g', input, head)
  {
    assert Use(TheConsumers, true);
    assert SlotsOk(ix, g');
    forall d | 0 <= d < |consumers| ensures PcOk(consumers[d], d, ix, g') {
      assert PcOk(consumers[d], d, ix, g);
      if consumers[d].h < |g.shift| && Sees(consumers[d], ix, g) { assert Sees(consumers[d], ix, g'); }
    }
  }

  lemma ProducerOwner(p: Producer, tail: nat, tailBlock: Option<nat>, blocks: seq<Block>, ix: Index, g: Ghost, owner: seq<Owner>)
    requires ProducerInv(p, tail, tailBlock, blocks, ix, g)
    ensures ProducerInv(p, tail, tailBlock, blocks, ix, g.(owner := owner))
  {
    assert Use(TheProducer, true);
    assert SlotsOk(ix, g.(owner := owner));
  }

  /** The completer about to release the block, and the point it goes on to. */
  lemma ReleaseFacts(s: State, g: Ghost, c: nat)
    requires InvWith(s, g) && c < |s.consumers| && s.consumers[c].pc.Release?
    ensures var x, b := s.consumers[c], LastBlock(s.consumers[c]);
            && x.h < |s.ix.headers| && 0 <= b < |g.info| && g.info[b].stage == Unlinked(c) && x.k == g.info[b].blk < |g.owner|
            && SlotsOk(s.ix, WithStage(g, b, Dead))
            && PcOk(Continue(x, |s.ix.headers[x.h].index|), c, s.ix, WithStage(g, b, Dead))
  {
    ConsumerFacts(s, g, c);
    BlockFacts(s, g, LastBlock(s.consumers[c]));
    ReleasePc(s.consumers[c], c, s.ix, g);
  }

  /** The parts after the release, but for the pool. */
  lemma ReleaseRest(s: State, g: Ghost, c: nat, x: Consumer, b: nat)
    requires InvWith(s, g) && c < |s.consumers| && s.consumers[c].pc.Release? && SameRange(s.consumers[c], x)
    requires b == LastBlock(s.consumers[c]) && b < |g.info| && g.info[b].stage == Unlinked(c) && g.info[b].blk < |g.owner|
    requires SlotsOk(s.ix, WithStage(g, b, Dead)) && PcOk(x, c, s.ix, WithStage(g, b, Dead))
    ensures var C, g', after := Blocks(s.tailIndex), Released(g, b), s.consumers[c := x];
            && IndexInv(s.ix, g', C, Pos(s.producer, |g.info|, C), |g.info| + PendingCount(s.producer))
            && CountInv(s.blocks, g'.info, after, s.headIndex)
            && StagesInv(g'.info, C, after)
            && ConsumersInv(after, s.ix, g', s.input, s.headIndex)
            && DataInv(s.blocks, g'.info, s.input, after, s.headIndex)
            && ProducerInv(s.producer, s.tailIndex, s.tailBlock, s.blocks, s.ix, g')
  {
    CompleterRest(s, g, c, x, b, Dead);
    OwnerApart(s, WithStage(g, b, Dead), s.consumers[c := x], |g.info|, Released(g, b));
  }

  lemma OwnerApart(s: State, g: Ghost, consumers: seq<Consumer>, n: nat, g': Ghost)
    requires g' == g.(owner := g'.owner)
    requires var C := Blocks(s.tailIndex); IndexInv(s.ix, g, C, Pos(s.producer, n, C), n + PendingCount(s.producer))
    requires ConsumersInv(consumers, s.ix, g, s.input, s.headIndex)
    requires ProducerInv(s.producer, s.tailIndex, s.tailBlock, s.blocks, s.ix, g)
    ensures var C := Blocks(s.tailIndex); IndexInv(s.ix, g', C, Pos(s.producer, n, C), n + PendingCount(s.producer))
    ensures ConsumersInv(consumers, s.ix, g', s.input, s.headIndex)
    ensures ProducerInv(s.producer, s.tailIndex, s.tailBlock, s.blocks, s.ix, g')
  {
    var C := Blocks(s.tailIndex);
    IndexApart(s.ix, g, C, Pos(s.producer, n, C), n + PendingCount(s.producer), g');
    ConsumersApart(consumers, s.ix, g, s.input, s.headIndex, g');
    ProducerOwner(s.producer, s.tailIndex, s.tailBlock, s.blocks, s.ix, g, g'.owner);
  }

  /** The completer, and nobody else, puts the block on the free list. */
  lemma KeepRelease(s: State, g: Ghost, c: nat) returns (g': Ghost)
    requires InvWith(s, g) && c < |s.consumers| && s.consumers[c].pc.Release?
    ensures s.consumers[c].k < |s.holder| && s.consumers[c].h < |s.ix.headers|
    ensures InvWith(ReleaseStep(s, c), g')
    ensures Carries(g, g', Blocks(s.tailIndex))
  {
    ReleaseFacts(s, g, c);
    g' := Released(g, LastBlock(s.consumers[c]));
    BlockFacts(s, g, LastBlock(s.consumers[c]));
    var x := s.consumers[c];
    ReleaseJoin(s, g, c, Continue(x, |s.ix.headers[x.h].index|), LastBlock(x));
  }

  lemma ReleaseJoin(s: State, g: Ghost, c: nat, x: Consumer, b: nat)
    requires InvWith(s, g) && c < |s.consumers| && s.consumers[c].pc.Release? && SameRange(s.consumers[c], x)
    requires b == LastBlock(s.consumers[c]) && b < |g.info| && g.info[b].stage == Unlinked(c)
    requires g.info[b].blk < |g.owner| == |s.holder|
    requires SlotsOk(s.ix, WithStage(g, b, Dead)) && PcOk(x, c, s.ix, WithStage(g, b, Dead))
    ensures InvWith(s.(holder := s.holder[g.info[b].blk := Pool], released := s.released + multiset{b}, consumers := s.consumers[c := x]),
                    Released(g, b))
  {
    ReleaseRest(s, g, c, x, b);
    BlocksRelease(s.blocks, s.holder, g, SpareOf(s.producer), b);
    ReleasesRelease(s.released, g, b);
    DeliveriesSame(s.delivered, s.input, s.consumers, s.headIndex, c, x);
  }

  /** Nobody has released the block before. */
  lemma ReleasesRelease(released: multiset<int>, g: Ghost, b: nat)
    requires ReleasesInv(released, g.info) && b < |g.info| && !g.info[b].stage.Dead? && g.info[b].blk < |g.owner|
    ensures released[b] == 0 && ReleasesInv(released + multiset{b}, Released(g, b).info)
  {
    assert Use(TheReleases, true);
  }
}
