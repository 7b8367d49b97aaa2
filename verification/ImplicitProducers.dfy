/** The producer's steps keep the invariant of the implicit producer's sub-queue. */
module ImplicitProducers {
  import opened Counting
  import opened Options
  import opened Slots
  import opened BlockIndex
  import opened ImplicitQueue
  import opened ImplicitConsumers

  // ---------------------------------------------------------------------------
  // Steps that change the producer's own fields only

  /** What the producer part says at a program point, with the slots it speaks of. */
  ghost predicate ProducerAt(p: Producer, tail: nat, tailBlock: Option<nat>, blocks: seq<Block>, ix: Index, g: Ghost)
  {
    SlotsOk(ix, g) && ProducerParts(p, tail, tailBlock, blocks, ix, g)
  }

  lemma ProducerFacts(s: State, g: Ghost)
    requires InvWith(s, g)
    ensures ProducerAt(s.producer, s.tailIndex, s.tailBlock, s.blocks, s.ix, g)
    ensures Blocks(s.tailIndex) <= |g.info|
  {
    assert Use(TheProducer, true);
    CommittedInserted(s, g);
  }

  /** The producer moves to a point with the same tail position and pending key. */
  lemma KeepPoint(s: State, g: Ghost, p: Producer, tailBlock: Option<nat>)
    requires InvWith(s, g) && ProducerInv(p, s.tailIndex, tailBlock, s.blocks, s.ix, g)
    requires SpareOf(p) == SpareOf(s.producer) && PendingCount(p) == PendingCount(s.producer)
    requires Pos(p, |g.info|, Blocks(s.tailIndex)) == Pos(s.producer, |g.info|, Blocks(s.tailIndex))
    ensures InvWith(s.(producer := p, tailBlock := tailBlock), g)
  {
  }

  lemma KeepOwn(s: State, g: Ghost, p: Producer, tailBlock: Option<nat>)
    requires InvWith(s, g) && ProducerAt(p, s.tailIndex, tailBlock, s.blocks, s.ix, g)
    requires SpareOf(p) == SpareOf(s.producer) && PendingCount(p) == PendingCount(s.producer)
    requires Pos(p, |g.info|, Blocks(s.tailIndex)) == Pos(s.producer, |g.info|, Blocks(s.tailIndex))
    ensures InvWith(s.(producer := p, tailBlock := tailBlock), g)
  {
    SealProducer(p, s.tailIndex, tailBlock, s.blocks, s.ix, g);
    KeepPoint(s, g, p, tailBlock);
  }

  lemma SealProducer(p: Producer, tail: nat, tailBlock: Option<nat>, blocks: seq<Block>, ix: Index, g: Ghost)
    requires ProducerAt(p, tail, tailBlock, blocks, ix, g)
    ensures ProducerInv(p, tail, tailBlock, blocks, ix, g)
  {
  }

  /** Points between Scan and the end of an insertion. */
  predicate IsAllocating(p: Producer)
  {
    p.Scan? || p.Publish? || p.StoreKey? || p.StoreTail? || p.TakeBlock? || p.StoreValue? || p.Rewind? || p.ClearEntry?
  }

  lemma AllocFacts(s: State, g: Ghost)
    requires InvWith(s, g) && IsAllocating(s.producer)
    ensures s.producer.n == |g.info| && AllLive(g.info, Blocks(s.tailIndex)) && Blocks(s.tailIndex) <= |g.info|
    ensures forall b :: 0 <= b < |g.info| ==> !g.info[b].stage.Undone?
  {
    ProducerFacts(s, g);
    NoneUndone(s, g);
  }

  lemma NoneUndone(s: State, g: Ghost)
    requires InvWith(s, g) && AllLive(g.info, Blocks(s.tailIndex))
    ensures forall b :: 0 <= b < |g.info| ==> !g.info[b].stage.Undone?
  {
    assert Use(TheStages, true);
  }

  /** The producer goes on within an insertion; the index has changed, but no number's block. */
  lemma AllocMoves(p: Producer, tail: nat, tailBlock: Option<nat>, blocks: seq<Block>, ix: Index, g: Ghost, p': Producer, ix': Index, g': Ghost)
    requires ProducerInv(p, tail, tailBlock, blocks, ix, g) && IsAllocating(p) && !p'.StoreValue? && !p'.Publish?
    requires IsAllocating(p') && p'.op == p.op && p'.n == p.n
    requires SlotsOk(ix', g') && g'.info == g.info && g'.chain == g.chain && g'.given == g.given
    requires p'.StoreKey? ==> EntryOf(ix', g', p.n).key.None?
    requires p'.ClearEntry? ==> p'.e == EntryNow(ix', g'.shift, p.n)
    ensures ProducerInv(p', tail, tailBlock, blocks, ix', g')
  {
    assert Use(TheProducer, true);
  }

  // ---------------------------------------------------------------------------
  // Begin

  /** All blocks of the call are inserted. */
  ghost predicate Allocated(tail: nat, blocks: seq<Block>, g: Ghost, op: Op)
  {
    var C, partial := Blocks(tail), tail % BLOCK_SIZE != 0;
    && |g.info| == Blocks(tail + |op.items|)
    && OpOk(op, g.info, C, partial) && Linked(blocks, g.info, C, partial)
    && AllLive(g.info, C) && g.given == |g.chain|
  }

  lemma StartFillOk(s: State, g: Ghost, op: Op)
    requires SlotsOk(s.ix, g) && Allocated(s.tailIndex, s.blocks, g, op)
    ensures var s' := StartFill(s, op); ProducerAt(s'.producer, s.tailIndex, s'.tailBlock, s.blocks, s.ix, g)
  {
  }

  /** On to the next block, or to filling. */
  lemma NextBlockOk(s: State, g: Ghost, op: Op)
    requires SlotsOk(s.ix, g)
    requires var C, partial := Blocks(s.tailIndex), s.tailIndex % BLOCK_SIZE != 0;
             && |g.info| <= Blocks(s.tailIndex + |op.items|) && s.tailBlock == op.end
             && OpOk(op, g.info, C, partial) && Linked(s.blocks, g.info, C, partial)
             && AllLive(g.info, C) && g.given == |g.chain|
    ensures var s' := NextBlock(s, op, |g.info|);
            && ProducerAt(s'.producer, s.tailIndex, s'.tailBlock, s.blocks, s.ix, g)
            && s' == s.(producer := s'.producer, tailBlock := s'.tailBlock)
            && SpareOf(s'.producer).None? && PendingCount(s'.producer) == 0
            && Pos(s'.producer, |g.info|, Blocks(s.tailIndex)) == |g.info|
  {
    if |g.info| == Blocks(s.tailIndex + |op.items|) { StartFillOk(s, g, op); }
  }

  lemma KeepBegin(s: State, g: Ghost, items: seq<Value>)
    requires InvWith(s, g) && s.producer.Idle?
    ensures InvWith(Begin(s, items), g)
  {
    ProducerFacts(s, g);
    NextBlockOk(s, g, Op(items, s.tailBlock, None, s.tailBlock));
    KeepOwn(s, g, Begin(s, items).producer, Begin(s, items).tailBlock);
  }

  // ---------------------------------------------------------------------------
  // Scan

  /** The entry after the tail is that of the next block. */
  lemma CandidateIs(ix: Index, g: Ghost, n: int)
    requires SlotsOk(ix, g) && Cur(ix).tail == SlotNow(ix, g.shift, n - 1)
    ensures Candidate(ix) == EntryNow(ix, g.shift, n)
    ensures Next(|Cur(ix).index|, Cur(ix).tail) == SlotNow(ix, g.shift, n)
  {
    WalkStep(|Cur(ix).index|, g.shift[|g.shift| - 1], n - 1);
  }

  /** The position of the tail before an insertion. */
  lemma TailFacts(s: State, g: Ghost)
    requires InvWith(s, g)
    ensures SlotsOk(s.ix, g)
    ensures Cur(s.ix).tail == SlotNow(s.ix, g.shift, Pos(s.producer, |g.info|, Blocks(s.tailIndex)) - 1)
  {
    assert Use(TheIndex, true);
  }

  lemma UndoOk(s: State, g: Ghost, op: Op)
    requires SlotsOk(s.ix, g) && Allocating(s.tailIndex, s.tailBlock, s.blocks, g, op, |g.info|)
    ensures ProducerAt(UndoEntry(op, Blocks(s.tailIndex), op.first), s.tailIndex, s.tailBlock, s.blocks, s.ix, g)
  {
  }

  lemma KeepScan(s: State, g: Ghost)
    requires InvWith(s, g) && s.producer.Scan? && IndexOk(s.ix)
    requires var x := s.ix.entries[Candidate(s.ix)]; x.key.None? || x.value.None?
    ensures InvWith(At(s, StoreKey(s.producer.op, s.producer.n)), g)
  {
    ProducerFacts(s, g);
    TailFacts(s, g);
    CandidateIs(s.ix, g, |g.info|);
    KeepOwn(s, g, StoreKey(s.producer.op, s.producer.n), s.tailBlock);
  }

  lemma KeepScanFail(s: State, g: Ghost)
    requires InvWith(s, g) && s.producer.Scan?
    ensures InvWith(Undo(s, s.producer.op), g)
  {
    ProducerFacts(s, g);
    UndoOk(s, g, s.producer.op);
    KeepOwn(s, g, UndoEntry(s.producer.op, Blocks(s.tailIndex), s.producer.op.first), s.tailBlock);
  }

  // ---------------------------------------------------------------------------
  // Changes of the index, seen by consumers

  /** Headers keep their slots and entries their valid keys; entries and headers may be added. */
  ghost predicate Extends(ix: Index, g: Ghost, ix': Index, g': Ghost)
  {
    && SlotsOk(ix, g) && SlotsOk(ix', g') && g'.info == g.info
    && |g.shift| <= |g'.shift| && |ix.entries| <= |ix'.entries|
    && (forall h :: 0 <= h < |g.shift| ==> g'.shift[h] == g.shift[h])
    && (forall h :: 0 <= h < |g.shift| ==> ix'.headers[h].index == ix.headers[h].index)
    && (forall e :: 0 <= e < |ix.entries| ==> (ix.entries[e].key.Some? ==> ix'.entries[e].key.Some?))
  }

  /** A reader that could find a key at a header's tail still can. */
  ghost predicate TailsOk(ix: Index, g: Ghost, ix': Index, g': Ghost)
    requires Extends(ix, g, ix', g')
  {
    forall h :: 0 <= h < |g.shift| ==> TailOk(ix, ix', h)
  }

  ghost predicate TailOk(ix: Index, ix': Index, h: nat)
    requires IndexOk(ix) && IndexOk(ix') && h < |ix.headers| <= |ix'.headers|
  {
    assert HeaderOk(ix.headers[h], |ix.entries|) && HeaderOk(ix'.headers[h], |ix'.entries|);
    KeyAt(ix, h, ix.headers[h].tail).Some? ==> KeyAt(ix', h, ix'.headers[h].tail).Some?
  }

  lemma PcExtends(x: Consumer, c: nat, ix: Index, g: Ghost, ix': Index, g': Ghost)
    requires Extends(ix, g, ix', g') && PcOk(x, c, ix, g) && (x.from < x.end ==> TailsOk(ix, g, ix', g'))
    ensures PcOk(x, c, ix', g')
  {
    if x.h < |g.shift| {
      assert HeaderOk(ix.headers[x.h], |ix.entries|) && HeaderOk(ix'.headers[x.h], |ix'.entries|);
      assert forall b: int :: EntryIn(ix', g'.shift, x.h, b) == EntryIn(ix, g.shift, x.h, b);
      assert forall b: int :: SlotOf(ix'.headers[x.h], g'.shift[x.h], b) == SlotOf(ix.headers[x.h], g.shift[x.h], b);
      assert Sees(x, ix, g) ==> Sees(x, ix', g');
      if x.pc.LoadTail? { assert TailOk(ix, ix', x.h); }
    }
  }

  lemma ConsumersExtend(consumers: seq<Consumer>, ix: Index, g: Ghost, input: seq<Value>, head: nat, ix': Index, g': Ghost)
    requires ConsumersInv(consumers, ix, g, input, head) && Extends(ix, g, ix', g')
    requires forall c :: 0 <= c < |consumers| && consumers[c].from < consumers[c].end ==> TailsOk(ix, g, ix', g')
    ensures ConsumersInv(consumers, ix', g', input, head)
  {
    assert Use(TheConsumers, true);
    forall d | 0 <= d < |consumers| ensures PcOk(consumers[d], d, ix', g') {
      PcExtends(consumers[d], d, ix, g, ix', g');
    }
  }

  // ---------------------------------------------------------------------------
  // Growth

  function GrownGhost(g: Ghost, cap: nat, n: nat): Ghost { g.(shift := g.shift + [GrownShift(cap, n)]) }

  /** The next block's entry is taken only if no rolled-back insertion left it free. */
  lemma NoLeftovers(ix: Index, g: Ghost, committed: nat, n: nat)
    requires IndexInv(ix, g, committed, n, n) && |g.info| == n
    ensures SlotsOk(ix, g) && n <= g.high
    ensures EntryOf(ix, g, n).key.Some? && EntryOf(ix, g, n).value.Some? ==> g.high == n
  {
    assert Use(TheIndex, true);
  }

  /** What growing leaves as it was. */
  lemma GrowExtends(ix: Index, g: Ghost, n: nat, junk: seq<Option<nat>>)
    requires SlotsOk(ix, g) && Cur(ix).tail == SlotNow(ix, g.shift, n - 1) && |junk| == |Cur(ix).index| && g.high == n
    ensures var ix', g' := Grow(ix, junk), GrownGhost(g, |junk|, n);
            && Extends(ix, g, ix', g') && TailsOk(ix, g, ix', g')
            && EntryOf(ix', g', n).key.None? && |Cur(ix').index| == 2 * |junk| && Cur(ix').tail == SlotNow(ix', g'.shift, n - 1)
            && (forall b :: n - |junk| <= b < n ==> SameEntry(ix, g, ix', g', b))
  {
    var ix', g' := Grow(ix, junk), GrownGhost(g, |junk|, n);
    GrowSlotted(ix, g.shift, junk, n);
    GrowKeepsEntries(ix, g.shift, junk, n);
    forall b | n - |junk| <= b < n ensures SameEntry(ix, g, ix', g', b) {
      assert EntryNow(ix', g'.shift, b) == EntryNow(ix, g.shift, b);
    }
    forall h | 0 <= h < |g.shift| ensures TailOk(ix, ix', h) { assert HeaderOk(ix.headers[h], |ix.entries|); }
  }

  ghost predicate SameEntry(ix: Index, g: Ghost, ix': Index, g': Ghost, b: int)
    requires SlotsOk(ix, g) && SlotsOk(ix', g')
  {
    EntryNow(ix', g'.shift, b) == EntryNow(ix, g.shift, b) && EntryOf(ix', g', b) == EntryOf(ix, g, b)
  }

  lemma IndexGrow(ix: Index, g: Ghost, committed: nat, n: nat, junk: seq<Option<nat>>)
    requires IndexInv(ix, g, committed, n, n) && |g.info| == n && SlotsOk(ix, g) && |junk| == |Cur(ix).index|
    requires AllLive(g.info, committed) && g.high == n && forall b :: 0 <= b < n ==> !g.info[b].stage.Undone?
    requires SlotsOk(Grow(ix, junk), GrownGhost(g, |junk|, n))
    requires var ix', g' := Grow(ix, junk), GrownGhost(g, |junk|, n);
             && |Cur(ix').index| == 2 * |junk| && Cur(ix').tail == SlotNow(ix', g'.shift, n - 1)
             && (forall b :: n - |junk| <= b < n ==> SameEntry(ix, g, ix', g', b))
    ensures IndexInv(Grow(ix, junk), GrownGhost(g, |junk|, n), committed, n, n)
  {
    assert Use(TheIndex, true);
    var ix', g' := Grow(ix, junk), GrownGhost(g, |junk|, n);
    forall b | 0 <= b < n ensures Held(ix', g', b, n) {
      assert Held(ix, g, b, n);
      if Occupies(g.info[b].stage) { assert SameEntry(ix, g, ix', g', b); }
    }
    forall b | committed <= b < n ensures EntryOf(ix', g', b).key == Some(b) {
      assert Held(ix, g, b, n) && SameEntry(ix, g, ix', g', b);
    }
    if AnyInUse(g.info, committed) {
      var b :| 0 <= b < committed && b < |g.info| && Occupies(g.info[b].stage);
      assert Held(ix, g, b, n) && SameEntry(ix, g, ix', g', committed - 1);
    }
  }

  lemma PublishFacts(s: State, g: Ghost)
    requires InvWith(s, g) && s.producer.Publish?
    ensures SlotsOk(s.ix, g) && g.high == s.producer.n == |g.info| && |s.producer.junk| == |Cur(s.ix).index|
  {
    ProducerFacts(s, g);
  }

  lemma GrowParts(s: State, g: Ghost)
    requires InvWith(s, g) && s.producer.Publish? && IndexOk(s.ix) && |s.producer.junk| == |Cur(s.ix).index|
    ensures var ix', g', C := Grow(s.ix, s.producer.junk), GrownGhost(g, |s.producer.junk|, s.producer.n), Blocks(s.tailIndex);
            && s.producer.n == |g.info|
            && IndexInv(ix', g', C, |g.info|, |g.info|)
            && ConsumersInv(s.consumers, ix', g', s.input, s.headIndex)
            && ProducerInv(StoreKey(s.producer.op, s.producer.n), s.tailIndex, s.tailBlock, s.blocks, ix', g')
  {
    var n, C, junk := s.producer.n, Blocks(s.tailIndex), s.producer.junk;
    AllocFacts(s, g);
    TailFacts(s, g);
    PublishFacts(s, g);
    var g' := GrownGhost(g, |junk|, n);
    GrowExtends(s.ix, g, n, junk);
    IndexGrow(s.ix, g, C, n, junk);
    ConsumersExtend(s.consumers, s.ix, g, s.input, s.headIndex, Grow(s.ix, junk), g');
    AllocMoves(s.producer, s.tailIndex, s.tailBlock, s.blocks, s.ix, g, StoreKey(s.producer.op, n), Grow(s.ix, junk), g');
  }

  /** Publishing the larger index, whatever consumers have released since the slot was found
      in use. */
  lemma KeepPublish(s: State, g: Ghost) returns (g': Ghost)
    requires InvWith(s, g) && s.producer.Publish?
    ensures IndexOk(s.ix) && |s.producer.junk| == |Cur(s.ix).index|
    ensures InvWith(PublishStep(s), g')
    ensures Carries(g, g', Blocks(s.tailIndex))
  {
    PublishFacts(s, g);
    g' := GrownGhost(g, |s.producer.junk|, s.producer.n);
    GrowParts(s, g);
    KeepIndex(s, g, StoreKey(s.producer.op, s.producer.n), Grow(s.ix, s.producer.junk), g');
  }

  /** The slot is in use when it is tested: on to a larger index. No key beyond the blocks
      inserted is left over then, and none appears before it is published. */
  lemma KeepScanUsed(s: State, g: Ghost, junk: seq<Option<nat>>)
    requires InvWith(s, g) && s.producer.Scan? && IndexOk(s.ix) && |junk| == |Cur(s.ix).index|
    requires var x := s.ix.entries[Candidate(s.ix)]; x.key.Some? && x.value.Some?
    ensures InvWith(At(s, Publish(s.producer.op, s.producer.n, junk)), g)
  {
    var n := s.producer.n;
    AllocFacts(s, g);
    TailFacts(s, g);
    CandidateIs(s.ix, g, n);
    NoLeftovers(s.ix, g, Blocks(s.tailIndex), n);
    ScanPublish(s, g, junk);
    KeepPoint(s, g, Publish(s.producer.op, n, junk), s.tailBlock);
  }

  lemma ScanPublish(s: State, g: Ghost, junk: seq<Option<nat>>)
    requires InvWith(s, g) && s.producer.Scan? && IndexOk(s.ix) && |junk| == |Cur(s.ix).index| && g.high == s.producer.n
    ensures ProducerInv(Publish(s.producer.op, s.producer.n, junk), s.tailIndex, s.tailBlock, s.blocks, s.ix, g)
  {
    assert Use(TheProducer, true);
  }

  /** A change of the index between two points of an insertion. */
  lemma KeepIndex(s: State, g: Ghost, p: Producer, ix: Index, g': Ghost)
    requires InvWith(s, g) && SpareOf(p) == SpareOf(s.producer)
    requires g'.info == g.info && g'.owner == g.owner && g'.chain == g.chain && g'.given == g.given
    requires IndexInv(ix, g', Blocks(s.tailIndex), Pos(p, |g.info|, Blocks(s.tailIndex)), |g.info| + PendingCount(p))
    requires ConsumersInv(s.consumers, ix, g', s.input, s.headIndex)
    requires ProducerInv(p, s.tailIndex, s.tailBlock, s.blocks, ix, g')
    ensures InvWith(At(s.(ix := ix), p), g')
  {
    BlocksGhost(s.blocks, s.holder, g, SpareOf(s.producer), g');
  }

  /** The blocks do not depend on slots. */
  lemma BlocksGhost(blocks: seq<Block>, holder: seq<Holder>, g: Ghost, spare: Option<nat>, g': Ghost)
    requires BlocksInv(blocks, holder, g, spare)
    requires g'.info == g.info && g'.owner == g.owner && g'.chain == g.chain && g'.given == g.given
    ensures BlocksInv(blocks, holder, g', spare)
  {
    assert Use(TheBlocks, true);
    forall k | 0 <= k < |blocks| ensures OwnerOk(k, g', spare) { assert OwnerOk(k, g, spare); }
  }

  // ---------------------------------------------------------------------------
  // Storing the key and the tail

  function KeyGhost(g: Ghost, n: nat): Ghost { g.(high := if g.high <= n then n + 1 else g.high) }

  lemma SlotsKey(ix: Index, g: Ghost, n: nat)
    requires SlotsOk(ix, g) && n <= g.high && (n < g.high ==> EntryOf(ix, g, n).key == Some(n))
    ensures var ix' := SetKey(ix, EntryNow(ix, g.shift, n), n);
            && SlotsOk(ix', KeyGhost(g, n))
            && (forall b: int :: EntryNow(ix', g.shift, b) == EntryNow(ix, g.shift, b))
  {
    var e := EntryNow(ix, g.shift, n);
    SetKeySlotted(ix, g.shift, n);
    if n < g.high {
      assert SetKey(ix, e, n) == ix;
    } else {
      SetKeyWithin(ix, g.shift, n, g.high);
    }
  }

  /** A block in use does not have the entry that is free for the next block, so it is less
      than a whole turn behind it. */
  lemma NextIsFree(ix: Index, g: Ghost, b: nat, n: nat)
    requires SlotsOk(ix, g) && b < |g.info| && Held(ix, g, b, n) && Occupies(g.info[b].stage)
    requires EntryOf(ix, g, n).key.None? || EntryOf(ix, g, n).value.None?
    ensures g.info[b].entry != EntryNow(ix, g.shift, n) && n + 1 <= b + |Cur(ix).index|
  {
    if n == b + |Cur(ix).index| { WalkTurn(|Cur(ix).index|, g.shift[|g.shift| - 1], b); }
  }

  lemma KeyExtends(ix: Index, g: Ghost, n: nat)
    requires SlotsOk(ix, g) && n <= g.high && (n < g.high ==> EntryOf(ix, g, n).key == Some(n))
    ensures var ix', g' := SetKey(ix, EntryNow(ix, g.shift, n), n), KeyGhost(g, n);
            Extends(ix, g, ix', g') && TailsOk(ix, g, ix', g')
  {
    var ix' := SetKey(ix, EntryNow(ix, g.shift, n), n);
    SlotsKey(ix, g, n);
    forall h | 0 <= h < |g.shift| ensures TailOk(ix, ix', h) { assert HeaderOk(ix.headers[h], |ix.entries|); }
  }

  lemma IndexKey(ix: Index, g: Ghost, committed: nat, n: nat)
    requires IndexInv(ix, g, committed, n, n) && |g.info| == n && AllLive(g.info, committed) && SlotsOk(ix, g)
    requires forall b :: 0 <= b < n ==> !g.info[b].stage.Undone?
    requires EntryOf(ix, g, n).key.None? || EntryOf(ix, g, n).value.None?
    ensures var ix', g' := SetKey(ix, EntryNow(ix, g.shift, n), n), KeyGhost(g, n);
            IndexInv(ix', g', committed, n, n + 1) && Extends(ix, g, ix', g') && TailsOk(ix, g, ix', g')
  {
    assert Use(TheIndex, true);
    var e, bound := EntryNow(ix, g.shift, n), n + 1;
    var ix', g' := SetKey(ix, e, n), KeyGhost(g, n);
    SlotsKey(ix, g, n);
    KeyExtends(ix, g, n);
    KeyedHeld(ix, g, committed, n, bound);
    KeyedLeft(ix, g, committed, n);
  }

  /** The blocks inserted, after the key of the next has been stored. */
  lemma KeyedHeld(ix: Index, g: Ghost, committed: nat, n: nat, bound: nat)
    requires IndexInv(ix, g, committed, n, n) && |g.info| == n && bound == n + 1 && AllLive(g.info, committed) && SlotsOk(ix, g)
    requires EntryOf(ix, g, n).key.None? || EntryOf(ix, g, n).value.None?
    ensures var ix', g' := SetKey(ix, EntryNow(ix, g.shift, n), n), KeyGhost(g, n);
            && SlotsOk(ix', g') && (forall b :: 0 <= b < n ==> Held(ix', g', b, bound))
            && (forall b :: committed <= b < n ==> EntryOf(ix', g', b).key == Some(b))
  {
    assert Use(TheIndex, true);
    var ix', g' := SetKey(ix, EntryNow(ix, g.shift, n), n), KeyGhost(g, n);
    SlotsKey(ix, g, n);
    forall b | 0 <= b < n ensures Held(ix', g', b, bound) && (committed <= b ==> EntryOf(ix', g', b).key == Some(b)) {
      assert Held(ix, g, b, n);
      KeyHeld(ix, g, b, n);
    }
  }

  /** Keys left over from rollbacks. */
  lemma KeyedLeft(ix: Index, g: Ghost, committed: nat, n: nat)
    requires IndexInv(ix, g, committed, n, n) && |g.info| == n && SlotsOk(ix, g)
    ensures var ix', g' := SetKey(ix, EntryNow(ix, g.shift, n), n), KeyGhost(g, n);
            && SlotsOk(ix', g') && EntryOf(ix', g', n).key == Some(n)
            && (forall b :: n + 1 <= b < g'.high ==> EntryOf(ix', g', b) == Entry(Some(b), None))
  {
    assert Use(TheIndex, true);
    var ix', g' := SetKey(ix, EntryNow(ix, g.shift, n), n), KeyGhost(g, n);
    SlotsKey(ix, g, n);
    forall b | n + 1 <= b < g'.high ensures EntryOf(ix', g', b) == Entry(Some(b), None) {
      assert EntryOf(ix, g, b) == Entry(Some(b), None);
    }
  }

  /** A block in use after the next key has been stored. */
  lemma KeyHeld(ix: Index, g: Ghost, b: nat, n: nat)
    requires SlotsOk(ix, g) && b < |g.info| && Held(ix, g, b, n) && n <= g.high && (n < g.high ==> EntryOf(ix, g, n).key == Some(n))
    requires EntryOf(ix, g, n).key.None? || EntryOf(ix, g, n).value.None?
    ensures var ix', g' := SetKey(ix, EntryNow(ix, g.shift, n), n), KeyGhost(g, n);
            && SlotsOk(ix', g') && Held(ix', g', b, n + 1)
            && (Occupies(g.info[b].stage) ==> EntryOf(ix', g', b) == EntryOf(ix, g, b))
  {
    SlotsKey(ix, g, n);
    if Occupies(g.info[b].stage) { NextIsFree(ix, g, b, n); }
  }

  /** At StoreKey the entry after the tail is free and that of the next block. */
  lemma StoreKeyFacts(s: State, g: Ghost)
    requires InvWith(s, g) && s.producer.StoreKey?
    ensures SlotsOk(s.ix, g) && Candidate(s.ix) == EntryNow(s.ix, g.shift, s.producer.n)
    ensures EntryOf(s.ix, g, s.producer.n).key.None? || EntryOf(s.ix, g, s.producer.n).value.None?
  {
    ProducerFacts(s, g);
    TailFacts(s, g);
    CandidateIs(s.ix, g, s.producer.n);
  }

  lemma KeepStoreKey(s: State, g: Ghost) returns (g': Ghost)
    requires InvWith(s, g) && s.producer.StoreKey?
    ensures IndexOk(s.ix) && InvWith(StoreKeyStep(s), g')
    ensures Carries(g, g', Blocks(s.tailIndex))
  {
    var op, n := s.producer.op, s.producer.n;
    AllocFacts(s, g);
    StoreKeyFacts(s, g);
    IndexKey(s.ix, g, Blocks(s.tailIndex), n);
    g' := KeyGhost(g, n);
    var ix' := SetKey(s.ix, EntryNow(s.ix, g.shift, n), n);
    ConsumersExtend(s.consumers, s.ix, g, s.input, s.headIndex, ix', g');
    AllocMoves(s.producer, s.tailIndex, s.tailBlock, s.blocks, s.ix, g, StoreTail(op, n), ix', g');
    KeepIndex(s, g, StoreTail(op, n), ix', g');
  }

  /** Only the tail of the published header moves. */
  lemma SlotsTail(ix: Index, g: Ghost, t: nat)
    requires SlotsOk(ix, g) && t < |Cur(ix).index|
    ensures var ix' := SetTail(ix, t);
            && Extends(ix, g, ix', g) && Cur(ix').tail == t && Cur(ix').index == Cur(ix).index && ix'.entries == ix.entries
            && (forall b: int :: EntryNow(ix', g.shift, b) == EntryNow(ix, g.shift, b))
  {
    SetTailSlotted(ix, g.shift, t);
  }

  lemma TailExtends(ix: Index, g: Ghost, pos': int)
    requires SlotsOk(ix, g) && SlotNow(ix, g.shift, pos' - 1) < |Cur(ix).index| && EntryOf(ix, g, pos' - 1).key.Some?
    ensures var ix' := SetTail(ix, SlotNow(ix, g.shift, pos' - 1)); Extends(ix, g, ix', g) && TailsOk(ix, g, ix', g)
  {
    var ix' := SetTail(ix, SlotNow(ix, g.shift, pos' - 1));
    SlotsTail(ix, g, SlotNow(ix, g.shift, pos' - 1));
    forall h | 0 <= h < |g.shift| ensures TailOk(ix, ix', h) {
      assert HeaderOk(ix.headers[h], |ix.entries|) && HeaderOk(ix'.headers[h], |ix.entries|);
      if h == |g.shift| - 1 { assert KeyAt(ix', h, ix'.headers[h].tail) == EntryOf(ix', g, pos' - 1).key; }
    }
  }

  lemma IndexTail(ix: Index, g: Ghost, committed: nat, pos: int, bound: nat, pos': int)
    requires IndexInv(ix, g, committed, pos, bound) && SlotsOk(ix, g) && SlotNow(ix, g.shift, pos' - 1) < |Cur(ix).index|
    ensures var ix' := SetTail(ix, SlotNow(ix, g.shift, pos' - 1));
            && IndexInv(ix', g, committed, pos', bound) && Extends(ix, g, ix', g)
            && (AnyInUse(g.info, committed) && committed <= pos' <= bound ==> TailsOk(ix, g, ix', g))
  {
    assert Use(TheIndex, true);
    var ix' := SetTail(ix, SlotNow(ix, g.shift, pos' - 1));
    SlotsTail(ix, g, SlotNow(ix, g.shift, pos' - 1));
    forall b | 0 <= b < |g.info| ensures Held(ix', g, b, bound) { assert Held(ix, g, b, bound); }
    forall b | committed <= b < bound ensures EntryOf(ix', g, b).key == Some(b) { assert EntryOf(ix, g, b).key == Some(b); }
    forall b | bound <= b < g.high ensures EntryOf(ix', g, b) == Entry(Some(b), None) {
      assert EntryOf(ix, g, b) == Entry(Some(b), None);
    }
    if AnyInUse(g.info, committed) && committed <= pos' <= bound { TailExtends(ix, g, pos'); }
  }

  /** A consumer that has something claimed keeps a committed block in use. */
  lemma ConsumerInUse(s: State, g: Ghost, c: nat)
    requires InvWith(s, g) && c < |s.consumers| && s.consumers[c].from < s.consumers[c].end
    ensures AnyInUse(g.info, Blocks(s.tailIndex))
  {
    ConsumerFacts(s, g, c);
    PendingIsLive(s, g, c, s.consumers[c].from / BLOCK_SIZE);
  }

  lemma AllInUse(s: State, g: Ghost)
    requires InvWith(s, g)
    ensures forall c :: 0 <= c < |s.consumers| && s.consumers[c].from < s.consumers[c].end ==> AnyInUse(g.info, Blocks(s.tailIndex))
  {
    forall c | 0 <= c < |s.consumers| && s.consumers[c].from < s.consumers[c].end ensures AnyInUse(g.info, Blocks(s.tailIndex)) {
      ConsumerInUse(s, g, c);
    }
  }

  lemma TailConsumers(s: State, g: Ghost, pos': int)
    requires InvWith(s, g) && SlotsOk(s.ix, g) && SlotNow(s.ix, g.shift, pos' - 1) < |Cur(s.ix).index|
    requires Blocks(s.tailIndex) <= pos' <= |g.info| + PendingCount(s.producer)
    ensures var C, ix' := Blocks(s.tailIndex), SetTail(s.ix, SlotNow(s.ix, g.shift, pos' - 1));
            && ConsumersInv(s.consumers, ix', g, s.input, s.headIndex)
            && IndexInv(ix', g, C, pos', |g.info| + PendingCount(s.producer))
  {
    var C := Blocks(s.tailIndex);
    IndexTail(s.ix, g, C, Pos(s.producer, |g.info|, C), |g.info| + PendingCount(s.producer), pos');
    AllInUse(s, g);
    ConsumersExtend(s.consumers, s.ix, g, s.input, s.headIndex, SetTail(s.ix, SlotNow(s.ix, g.shift, pos' - 1)), g);
  }

  /** The producer moves the tail and goes to point `p`. */
  lemma KeepTail(s: State, g: Ghost, p: Producer, pos': int)
    requires InvWith(s, g) && SlotsOk(s.ix, g) && SlotNow(s.ix, g.shift, pos' - 1) < |Cur(s.ix).index|
    requires SpareOf(p) == SpareOf(s.producer) && PendingCount(p) == PendingCount(s.producer)
    requires pos' == Pos(p, |g.info|, Blocks(s.tailIndex)) && Blocks(s.tailIndex) <= pos' <= |g.info| + PendingCount(p)
    requires ProducerInv(p, s.tailIndex, s.tailBlock, s.blocks, SetTail(s.ix, SlotNow(s.ix, g.shift, pos' - 1)), g)
    ensures InvWith(At(s.(ix := SetTail(s.ix, SlotNow(s.ix, g.shift, pos' - 1))), p), g)
  {
    TailConsumers(s, g, pos');
  }

  lemma KeepStoreTail(s: State, g: Ghost)
    requires InvWith(s, g) && s.producer.StoreTail?
    ensures IndexOk(s.ix) && InvWith(StoreTailStep(s), g)
  {
    AllocFacts(s, g);
    TailFacts(s, g);
    CandidateIs(s.ix, g, |g.info|);
    var p, t := TakeBlock(s.producer.op, s.producer.n), Next(|Cur(s.ix).index|, Cur(s.ix).tail);
    SlotsTail(s.ix, g, t);
    AllocMoves(s.producer, s.tailIndex, s.tailBlock, s.blocks, s.ix, g, p, SetTail(s.ix, t), g);
    KeepTail(s, g, p, |g.info| + 1);
  }

  /** The slot one step back. */
  lemma BackIs(ix: Index, g: Ghost, pos: int)
    requires SlotsOk(ix, g) && Cur(ix).tail == SlotNow(ix, g.shift, pos - 1)
    ensures Prev(|Cur(ix).index|, Cur(ix).tail) == SlotNow(ix, g.shift, pos - 2) < |Cur(ix).index|
    ensures Cur(ix).index[Cur(ix).tail] == EntryNow(ix, g.shift, pos - 1)
  {
    WalkStep(|Cur(ix).index|, g.shift[|g.shift| - 1], pos - 2);
    WalkBound(|Cur(ix).index|, g.shift[|g.shift| - 1], pos - 2);
  }

  lemma RewindOk(s: State, g: Ghost)
    requires InvWith(s, g) && s.producer.Rewind?
    ensures SlotsOk(s.ix, g) && Blocks(s.tailIndex) <= |g.info|
    ensures var n, t := s.producer.n, SlotNow(s.ix, g.shift, s.producer.n - 1);
            && t < |Cur(s.ix).index| && n == |g.info|
            && RewindStep(s) == At(s.(ix := SetTail(s.ix, t)), ClearEntry(s.producer.op, n, EntryNow(s.ix, g.shift, n)))
            && ProducerInv(ClearEntry(s.producer.op, n, EntryNow(s.ix, g.shift, n)), s.tailIndex, s.tailBlock, s.blocks, SetTail(s.ix, t), g)
  {
    AllocFacts(s, g);
    TailFacts(s, g);
    BackIs(s.ix, g, s.producer.n + 1);
    SlotsTail(s.ix, g, Prev(|Cur(s.ix).index|, Cur(s.ix).tail));
    AllocMoves(s.producer, s.tailIndex, s.tailBlock, s.blocks, s.ix, g,
               ClearEntry(s.producer.op, s.producer.n, EntryNow(s.ix, g.shift, s.producer.n)),
               SetTail(s.ix, Prev(|Cur(s.ix).index|, Cur(s.ix).tail)), g);
  }

  lemma KeepRewind(s: State, g: Ghost)
    requires InvWith(s, g) && s.producer.Rewind?
    ensures IndexOk(s.ix) && InvWith(RewindStep(s), g)
  {
    RewindOk(s, g);
    KeepTail(s, g, ClearEntry(s.producer.op, s.producer.n, EntryNow(s.ix, g.shift, s.producer.n)), s.producer.n);
  }

  lemma UndoTailOk(s: State, g: Ghost)
    requires InvWith(s, g) && s.producer.UndoTail?
    ensures SlotsOk(s.ix, g) && s.producer.k < |s.blocks| && Blocks(s.tailIndex) <= s.producer.b < |g.info|
    ensures var p := UndoEntry(s.producer.op, s.producer.b + 1, s.blocks[s.producer.k].next);
            var t := SlotNow(s.ix, g.shift, |g.info| - (p.b - Blocks(s.tailIndex)) - 1);
            && t < |Cur(s.ix).index| && UndoTailStep(s) == At(s.(ix := SetTail(s.ix, t)), p)
            && ProducerInv(p, s.tailIndex, s.tailBlock, s.blocks, SetTail(s.ix, t), g)
  {
    TailFacts(s, g);
    BackIs(s.ix, g, |g.info| - (s.producer.b - Blocks(s.tailIndex)));
    SlotsTail(s.ix, g, Prev(|Cur(s.ix).index|, Cur(s.ix).tail));
    UndoTailPoint(s, g, SetTail(s.ix, Prev(|Cur(s.ix).index|, Cur(s.ix).tail)));
  }

  lemma UndoTailPoint(s: State, g: Ghost, ix: Index)
    requires InvWith(s, g) && s.producer.UndoTail? && SlotsOk(ix, g)
    ensures s.producer.k < |s.blocks| && Blocks(s.tailIndex) <= s.producer.b < |g.info|
    ensures ProducerInv(UndoEntry(s.producer.op, s.producer.b + 1, s.blocks[s.producer.k].next), s.tailIndex, s.tailBlock, s.blocks, ix, g)
  {
    ProducerFacts(s, g);
    var b := s.producer.b;
    if b + 1 < |g.info| { assert LinkAt(s.blocks, g.info, b); }
  }

  lemma KeepUndoTail(s: State, g: Ghost)
    requires InvWith(s, g) && s.producer.UndoTail?
    ensures IndexOk(s.ix) && s.producer.k < |s.blocks| && InvWith(UndoTailStep(s), g)
  {
    UndoTailOk(s, g);
    var p := UndoEntry(s.producer.op, s.producer.b + 1, s.blocks[s.producer.k].next);
    KeepTail(s, g, p, |g.info| - (p.b - Blocks(s.tailIndex)));
  }

  // ---------------------------------------------------------------------------
  // Taking a block

  function TakenGhost(g: Ghost, k: nat): Ghost
    requires k < |g.owner|
  {
    g.(owner := g.owner[k := Spare])
  }

  lemma BlocksTake(blocks: seq<Block>, holder: seq<Holder>, g: Ghost, k: nat, block: Block)
    requires BlocksInv(blocks, holder, g, None) && k < |blocks| && k < |holder| && holder[k].Pool? && block.cells == blocks[k].cells
    ensures k < |g.owner| && BlocksInv(blocks[k := block], holder[k := Ours], TakenGhost(g, k), Some(k))
    ensures forall b :: 0 <= b < |g.info| && !g.info[b].stage.Dead? ==> g.info[b].blk != k
    ensures forall p :: g.given <= p < |g.chain| ==> g.chain[p] != k
  {
    assert Use(TheBlocks, true);
    var g' := TakenGhost(g, k);
    forall j | 0 <= j < |blocks| ensures OwnerOk(j, g', Some(k)) { assert OwnerOk(j, g, None); }
  }

  /** A block that no number in use has may change. */
  lemma CountOther(blocks: seq<Block>, info: seq<Info>, consumers: seq<Consumer>, head: nat, k: nat, block: Block)
    requires CountInv(blocks, info, consumers, head) && k < |blocks|
    requires forall b :: 0 <= b < |info| && !info[b].stage.Dead? ==> info[b].blk != k
    ensures CountInv(blocks[k := block], info, consumers, head)
  {
    assert Use(TheCounts, true);
    forall b | 0 <= b < |info| ensures Counted(blocks[k := block], info[b], b, consumers, head) {
      assert Counted(blocks, info[b], b, consumers, head);
    }
  }

  lemma DataOther(blocks: seq<Block>, info: seq<Info>, input: seq<Value>, consumers: seq<Consumer>, head: nat, k: nat, block: Block)
    requires DataInv(blocks, info, input, consumers, head) && k < |blocks|
    requires forall b :: 0 <= b < |info| && !info[b].stage.Dead? ==> info[b].blk != k
    ensures DataInv(blocks[k := block], info, input, consumers, head)
  {
    assert Use(TheData, true);
    forall i | 0 <= i < |input|
      ensures i / BLOCK_SIZE < |info| && CellOk(blocks[k := block], info[i / BLOCK_SIZE], i, input, consumers, head)
    {
      assert CellOk(blocks, info[i / BLOCK_SIZE], i, input, consumers, head);
    }
    forall b | 0 <= b < |info| ensures AllRaw(blocks[k := block], info[b]) { assert AllRaw(blocks, info[b]); }
  }

  /** The links of the call's blocks. */
  lemma LinkedOther(blocks: seq<Block>, g: Ghost, C: nat, partial: bool, k: nat, block: Block)
    requires Linked(blocks, g.info, C, partial) && k < |blocks|
    requires forall b :: C - 1 <= b < |g.info| && 0 <= b ==> (b == C - 1 ==> partial) ==> g.info[b].blk != k
    ensures Linked(blocks[k := block], g.info, C, partial)
  {
    var after := blocks[k := block];
    forall b | C <= b < |g.info| - 1 ensures LinkAt(after, g.info, b) { assert LinkAt(blocks, g.info, b); }
  }

  /** The partly filled tail block and the blocks after it are in use. */
  lemma TailBlockKept(s: State, g: Ghost, b: nat)
    requires InvWith(s, g) && b < |g.info|
    requires b >= Blocks(s.tailIndex) || (b == Blocks(s.tailIndex) - 1 && s.tailIndex % BLOCK_SIZE != 0)
    ensures !g.info[b].stage.Dead?
  {
    UncommittedKept(s, g, b);
  }

  lemma NotThatBlock(s: State, g: Ghost, k: nat)
    requires InvWith(s, g)
    requires forall b :: 0 <= b < |g.info| && !g.info[b].stage.Dead? ==> g.info[b].blk != k
    ensures var C, partial := Blocks(s.tailIndex), s.tailIndex % BLOCK_SIZE != 0;
            forall b :: C - 1 <= b < |g.info| && 0 <= b ==> (b == C - 1 ==> partial) ==> g.info[b].blk != k
  {
    var C, partial := Blocks(s.tailIndex), s.tailIndex % BLOCK_SIZE != 0;
    forall b | C - 1 <= b < |g.info| && 0 <= b && (b == C - 1 ==> partial) ensures g.info[b].blk != k { TailBlockKept(s, g, b); }
  }

  lemma ProducerTake(s: State, g: Ghost, k: nat, block: Block)
    requires InvWith(s, g) && s.producer.TakeBlock? && k < |s.blocks| && k < |g.owner|
    requires block.next == None && block.count == 0
    requires forall b :: 0 <= b < |g.info| && !g.info[b].stage.Dead? ==> g.info[b].blk != k
    ensures ProducerInv(StoreValue(s.producer.op, s.producer.n, k), s.tailIndex, s.tailBlock, s.blocks[k := block], s.ix, TakenGhost(g, k))
  {
    ProducerFacts(s, g);
    NotThatBlock(s, g, k);
    LinkedOther(s.blocks, g, Blocks(s.tailIndex), s.tailIndex % BLOCK_SIZE != 0, k, block);
    assert SlotsOk(s.ix, TakenGhost(g, k));
  }

  lemma KeepTakeBlock(s: State, g: Ghost, k: nat) returns (g': Ghost)
    requires InvWith(s, g) && s.producer.TakeBlock? && k < |s.blocks| && k < |s.holder| && s.holder[k].Pool?
    ensures InvWith(TakeBlockStep(s, Some(k)), g')
    ensures Carries(g, g', Blocks(s.tailIndex))
  {
    var C := Blocks(s.tailIndex);
    var block := s.blocks[k].(count := 0, next := None);
    BlocksTake(s.blocks, s.holder, g, k, block);
    g' := TakenGhost(g, k);
    CountOther(s.blocks, g.info, s.consumers, s.headIndex, k, block);
    DataOther(s.blocks, g.info, s.input, s.consumers, s.headIndex, k, block);
    IndexApart(s.ix, g, C, Pos(s.producer, |g.info|, C), |g.info| + PendingCount(s.producer), g');
    ConsumersApart(s.consumers, s.ix, g, s.input, s.headIndex, g');
    ProducerTake(s, g, k, block);
  }

  lemma KeepTakeFail(s: State, g: Ghost)
    requires InvWith(s, g) && s.producer.TakeBlock?
    ensures InvWith(At(s, Rewind(s.producer.op, s.producer.n)), g)
  {
    ProducerFacts(s, g);
    KeepOwn(s, g, Rewind(s.producer.op, s.producer.n), s.tailBlock);
  }

  // ---------------------------------------------------------------------------
  // Storing the block in its entry

  function InsertedGhost(g: Ghost, e: nat, k: nat): Ghost
    requires k < |g.owner|
  {
    g.(info := g.info + [Info(e, k, Live)], owner := g.owner[k := Of(|g.info|)])
  }

  lemma IndexInsert(ix: Index, g: Ghost, committed: nat, n: nat, k: nat, bound: nat)
    requires IndexInv(ix, g, committed, bound, bound) && SlotsOk(ix, g) && |g.info| == n && bound == n + 1 && k < |g.owner|
    requires forall b :: 0 <= b < n ==> !g.info[b].stage.Undone?
    ensures var e := EntryNow(ix, g.shift, n); IndexInv(SetValue(ix, e, Some(k)), InsertedGhost(g, e, k), committed, bound, bound)
  {
    assert Use(TheIndex, true);
    var e := EntryNow(ix, g.shift, n);
    var ix', g' := SetValue(ix, e, Some(k)), InsertedGhost(g, e, k);
    SlotsValue(ix, g, e, Some(k));
    assert SlotsOk(ix', g');
    assert EntryOf(ix, g, n).key == Some(n);
    forall b | 0 <= b < |g'.info| ensures Held(ix', g', b, bound) { if b < n { assert Held(ix, g, b, bound); } }
    forall b | committed <= b < bound ensures EntryOf(ix', g', b).key == Some(b) { assert EntryOf(ix, g, b).key == Some(b); }
    forall b | bound <= b < g'.high ensures EntryOf(ix', g', b) == Entry(Some(b), None) {
      assert EntryOf(ix, g, b) == Entry(Some(b), None);
    }
  }

  lemma PcInsert(x: Consumer, c: nat, ix: Index, g: Ghost, e: nat, k: nat)
    requires SlotsOk(ix, g) && PcOk(x, c, ix, g) && x.end <= |g.info| * BLOCK_SIZE && k < |g.owner|
    ensures SlotsOk(ix, InsertedGhost(g, e, k)) && PcOk(x, c, ix, InsertedGhost(g, e, k))
  {
    var g' := InsertedGhost(g, e, k);
    assert SlotsOk(ix, g');
    if x.h < |g.shift| && Sees(x, ix, g) { assert Sees(x, ix, g'); }
  }

  lemma ConsumersInsert(consumers: seq<Consumer>, ix: Index, g: Ghost, input: seq<Value>, head: nat, e: nat, k: nat)
    requires ConsumersInv(consumers, ix, g, input, head) && head <= |g.info| * BLOCK_SIZE && k < |g.owner|
    ensures ConsumersInv(consumers, ix, InsertedGhost(g, e, k), input, head)
  {
    assert Use(TheConsumers, true);
    var g' := InsertedGhost(g, e, k);
    assert SlotsOk(ix, g');
    forall d | 0 <= d < |consumers| ensures PcOk(consumers[d], d, ix, g') {
      assert RangeOk(consumers[d], input, head);
      PcInsert(consumers[d], d, ix, g, e, k);
    }
  }

  /** Nobody has claimed anything in a block that is not committed. */
  lemma NothingPending(s: State, g: Ghost, b: nat)
    requires InvWith(s, g) && b >= Blocks(s.tailIndex)
    ensures Sum(s.consumers, PendFn(b)) == 0 && Clamp(s.headIndex - b * BLOCK_SIZE) == 0
  {
    forall c | 0 <= c < |s.consumers| ensures Pend(s.consumers[c], b) == 0 { ConsumerFacts(s, g, c); }
    SumZero(s.consumers, PendFn(b));
  }

  lemma CountInsert(blocks: seq<Block>, info: seq<Info>, consumers: seq<Consumer>, head: nat, x: Info)
    requires CountInv(blocks, info, consumers, head) && x.stage.Live? && x.blk < |blocks| && blocks[x.blk].count == 0
    requires Sum(consumers, PendFn(|info|)) == 0 && Clamp(head - |info| * BLOCK_SIZE) == 0
    ensures CountInv(blocks, info + [x], consumers, head)
  {
    assert Use(TheCounts, true);
    forall b | 0 <= b < |info + [x]| ensures Counted(blocks, (info + [x])[b], b, consumers, head) {
      if b < |info| { assert Counted(blocks, info[b], b, consumers, head); }
    }
  }

  lemma DataInsert(blocks: seq<Block>, info: seq<Info>, input: seq<Value>, consumers: seq<Consumer>, head: nat, x: Info)
    requires DataInv(blocks, info, input, consumers, head) && x.stage.Live?
    ensures DataInv(blocks, info + [x], input, consumers, head)
  {
    assert Use(TheData, true);
    var info' := info + [x];
    forall i | 0 <= i < |input|
      ensures i / BLOCK_SIZE < |info'| && CellOk(blocks, info'[i / BLOCK_SIZE], i, input, consumers, head)
    {
      assert CellOk(blocks, info[i / BLOCK_SIZE], i, input, consumers, head);
    }
    forall b | 0 <= b < |info'| ensures AllRaw(blocks, info'[b]) { if b < |info| { assert AllRaw(blocks, info[b]); } }
  }

  /** A link changes nothing that cells show. */
  lemma DataLink(blocks: seq<Block>, info: seq<Info>, input: seq<Value>, consumers: seq<Consumer>, head: nat, k: nat, next: Option<nat>)
    requires DataInv(blocks, info, input, consumers, head) && k < |blocks|
    ensures DataInv(blocks[k := blocks[k].(next := next)], info, input, consumers, head)
  {
    assert Use(TheData, true);
    var blocks' := blocks[k := blocks[k].(next := next)];
    forall i | 0 <= i < |input|
      ensures i / BLOCK_SIZE < |info| && CellOk(blocks', info[i / BLOCK_SIZE], i, input, consumers, head)
    {
      assert CellOk(blocks, info[i / BLOCK_SIZE], i, input, consumers, head);
    }
    forall b | 0 <= b < |info| ensures AllRaw(blocks', info[b]) { assert AllRaw(blocks, info[b]); }
  }

  lemma StagesInsert(info: seq<Info>, committed: nat, consumers: seq<Consumer>, x: Info)
    requires StagesInv(info, committed, consumers) && x.stage.Live?
    ensures StagesInv(info + [x], committed, consumers)
  {
    assert Use(TheStages, true);
    forall b | 0 <= b < |info + [x]| ensures StageOk((info + [x])[b].stage, b, consumers) {
      if b < |info| { assert StageOk(info[b].stage, b, consumers); }
    }
  }

  lemma ReleasesInsert(released: multiset<int>, g: Ghost, e: nat, k: nat)
    requires ReleasesInv(released, g.info) && k < |g.owner|
    ensures ReleasesInv(released, InsertedGhost(g, e, k).info)
  {
  }

  lemma BlocksInsert(blocks: seq<Block>, holder: seq<Holder>, g: Ghost, e: nat, k: nat)
    requires BlocksInv(blocks, holder, g, Some(k)) && k < |g.owner|
    ensures BlocksInv(blocks, holder, InsertedGhost(g, e, k), None)
  {
    assert Use(TheBlocks, true);
    var g' := InsertedGhost(g, e, k);
    forall j | 0 <= j < |blocks| ensures OwnerOk(j, g', None) { assert OwnerOk(j, g, Some(k)); }
    forall b | 0 <= b < |g'.info| && !g'.info[b].stage.Dead? ensures g'.info[b].blk < |blocks| && g'.owner[g'.info[b].blk] == Of(b) {}
  }

  /** The blocks as StoreValueStep leaves them. */
  function LinkedBlocks(s: State): seq<Block>
    requires s.producer.StoreValue? && (Links(s) ==> s.tailBlock.Some? && s.tailBlock.value < |s.blocks|)
  {
    var StoreValue(op, n, k) := s.producer;
    if Links(s) then s.blocks[s.tailBlock.value := s.blocks[s.tailBlock.value].(next := Some(k))] else s.blocks
  }

  function OpAfter(op: Op, k: nat): Op { op.(first := if op.first.None? then Some(k) else op.first, end := Some(k)) }

  /** The block that the new one is linked to is the last one before it; it is in use. */
  lemma LinkTarget(s: State, g: Ghost)
    requires InvWith(s, g) && s.producer.StoreValue?
    ensures Links(s) ==>
              |g.info| > 0 && s.tailBlock == Some(g.info[|g.info| - 1].blk) && !g.info[|g.info| - 1].stage.Dead?
  {
    ProducerFacts(s, g);
    if Links(s) { TailBlockKept(s, g, |g.info| - 1); }
  }

  lemma BlockIds(s: State, g: Ghost)
    requires InvWith(s, g)
    ensures |s.blocks| == |s.holder| == |g.owner|
    ensures forall b :: 0 <= b < |g.info| && !g.info[b].stage.Dead? ==> g.info[b].blk < |s.blocks|
    ensures s.producer.StoreValue? ==> s.producer.k < |s.blocks|
    ensures s.producer.StoreValue? ==> forall b :: 0 <= b < |g.info| && !g.info[b].stage.Dead? ==> g.info[b].blk != s.producer.k
  {
    assert Use(TheBlocks, true);
  }

  /** The chain with the new block at its end. */
  lemma LinkedInsert(blocks: seq<Block>, g: Ghost, C: nat, partial: bool, k: nat, e: nat, blocks': seq<Block>)
    requires Linked(blocks, g.info, C, partial) && k < |g.owner| && NextIs(blocks', k, None) && |blocks'| == |blocks|
    requires forall b :: C - 1 <= b < |g.info| && 0 <= b ==> (b == C - 1 ==> partial) ==> g.info[b].blk != k
    requires forall a, b :: C - 1 <= a < b < |g.info| && 0 <= a ==> (a == C - 1 ==> partial) ==> g.info[a].blk != g.info[b].blk
    requires if |g.info| > C || (partial && |g.info| > 0) then
               var t := g.info[|g.info| - 1].blk; t < |blocks| && blocks' == blocks[t := blocks[t].(next := Some(k))]
             else blocks' == blocks
    ensures Linked(blocks', InsertedGhost(g, e, k).info, C, partial)
  {
    var info' := InsertedGhost(g, e, k).info;
    forall b | C <= b < |info'| - 1 ensures LinkAt(blocks', info', b) {
      if b + 1 < |g.info| { assert LinkAt(blocks, g.info, b); }
    }
  }

  lemma OpInsert(op: Op, g: Ghost, C: nat, partial: bool, e: nat, k: nat)
    requires OpOk(op, g.info, C, partial) && k < |g.owner| && AllLive(g.info, C)
    ensures OpOk(OpAfter(op, k), InsertedGhost(g, e, k).info, C, partial) && AllLive(InsertedGhost(g, e, k).info, C)
  {
  }

  /** Distinct numbers have distinct blocks, for those the producer's links run through. */
  lemma LinksApart(s: State, g: Ghost)
    requires InvWith(s, g) && s.producer.StoreValue?
    ensures var C, partial := Blocks(s.tailIndex), s.tailIndex % BLOCK_SIZE != 0;
            && (forall b :: C - 1 <= b < |g.info| && 0 <= b ==> (b == C - 1 ==> partial) ==> g.info[b].blk != s.producer.k)
            && (forall a, b :: C - 1 <= a < b < |g.info| && 0 <= a ==> (a == C - 1 ==> partial) ==> g.info[a].blk != g.info[b].blk)
  {
    var C, partial := Blocks(s.tailIndex), s.tailIndex % BLOCK_SIZE != 0;
    BlockIds(s, g);
    forall b | C - 1 <= b < |g.info| && 0 <= b && (b == C - 1 ==> partial) ensures g.info[b].blk != s.producer.k { TailBlockKept(s, g, b); }
    forall a, b | C - 1 <= a < b < |g.info| && 0 <= a && (a == C - 1 ==> partial) ensures g.info[a].blk != g.info[b].blk {
      TailBlockKept(s, g, a);
      TailBlockKept(s, g, b);
      BlocksDiffer(s, g, a, b);
    }
  }

  /** The producer's locals and the chain after an insertion. */
  lemma InsertProducer(s: State, g: Ghost, e: nat)
    requires InvWith(s, g) && s.producer.StoreValue?
    ensures Links(s) ==> s.tailBlock.Some? && s.tailBlock.value < |s.blocks|
    ensures s.producer.k < |g.owner| && |LinkedBlocks(s)| == |s.blocks|
    ensures var C, partial, g', op' := Blocks(s.tailIndex), s.tailIndex % BLOCK_SIZE != 0, InsertedGhost(g, e, s.producer.k), OpAfter(s.producer.op, s.producer.k);
            && |g.info| == s.producer.n < Blocks(s.tailIndex + |s.producer.op.items|)
            && OpOk(op', g'.info, C, partial) && Linked(LinkedBlocks(s), g'.info, C, partial)
            && AllLive(g'.info, C) && g'.given == |g'.chain|
  {
    var C, partial := Blocks(s.tailIndex), s.tailIndex % BLOCK_SIZE != 0;
    ProducerFacts(s, g);
    BlockIds(s, g);
    LinkTarget(s, g);
    LinksApart(s, g);
    OpInsert(s.producer.op, g, C, partial, e, s.producer.k);
    LinkedInsert(s.blocks, g, C, partial, s.producer.k, e, LinkedBlocks(s));
  }

  /** Blocks, counts and cells after an insertion. */
  lemma InsertBlocks(s: State, g: Ghost, e: nat)
    requires InvWith(s, g) && s.producer.StoreValue? && (Links(s) ==> s.tailBlock.Some? && s.tailBlock.value < |s.blocks|) && s.producer.k < |g.owner|
    ensures var g' := InsertedGhost(g, e, s.producer.k);
            && BlocksInv(LinkedBlocks(s), s.holder, g', None)
            && CountInv(LinkedBlocks(s), g'.info, s.consumers, s.headIndex)
            && DataInv(LinkedBlocks(s), g'.info, s.input, s.consumers, s.headIndex)
            && StagesInv(g'.info, Blocks(s.tailIndex), s.consumers)
  {
    var k, x := s.producer.k, Info(e, s.producer.k, Live);
    ProducerFacts(s, g);
    BlockIds(s, g);
    NothingPending(s, g, |g.info|);
    if Links(s) {
      var t := s.tailBlock.value;
      BlockCells(s, g, t);
      BlocksSame(s.blocks, s.holder, g, Some(k), t, s.blocks[t].(next := Some(k)));
      CountBlock(s.blocks, g.info, s.consumers, s.headIndex, t, s.blocks[t].(next := Some(k)));
      DataLink(s.blocks, g.info, s.input, s.consumers, s.headIndex, t, Some(k));
    }
    BlocksInsert(LinkedBlocks(s), s.holder, g, e, k);
    CountInsert(LinkedBlocks(s), g.info, s.consumers, s.headIndex, x);
    DataInsert(LinkedBlocks(s), g.info, s.input, s.consumers, s.headIndex, x);
    StagesInsert(g.info, Blocks(s.tailIndex), s.consumers, x);
  }

  lemma BlockCells(s: State, g: Ghost, k: nat)
    requires InvWith(s, g) && k < |s.blocks|
    ensures |s.blocks[k].cells| == BLOCK_SIZE
  {
    assert Use(TheBlocks, true);
  }

  /** The index and the consumers' view of it after an insertion. */
  lemma InsertIndex(s: State, g: Ghost)
    requires InvWith(s, g) && s.producer.StoreValue? && s.producer.k < |g.owner| && |g.info| == s.producer.n
    ensures SlotsOk(s.ix, g) && Cur(s.ix).index[Cur(s.ix).tail] == EntryNow(s.ix, g.shift, s.producer.n)
    ensures var n, k, e := s.producer.n, s.producer.k, EntryNow(s.ix, g.shift, s.producer.n);
            && SlotsOk(SetValue(s.ix, e, Some(k)), InsertedGhost(g, e, k))
            && IndexInv(SetValue(s.ix, e, Some(k)), InsertedGhost(g, e, k), Blocks(s.tailIndex), n + 1, n + 1)
            && ConsumersInv(s.consumers, SetValue(s.ix, e, Some(k)), InsertedGhost(g, e, k), s.input, s.headIndex)
  {
    var n, k := s.producer.n, s.producer.k;
    ProducerFacts(s, g);
    TailFacts(s, g);
    BackIs(s.ix, g, n + 1);
    var e := EntryNow(s.ix, g.shift, n);
    NoneUndone(s, g);
    IndexInsert(s.ix, g, Blocks(s.tailIndex), n, k, n + 1);
    SlotsValue(s.ix, g, e, Some(k));
    ConsumersValue(s.consumers, s.ix, g, s.input, s.headIndex, e, Some(k));
    ConsumersInsert(s.consumers, SetValue(s.ix, e, Some(k)), g, s.input, s.headIndex, e, k);
  }

  /** Between storing the block and the next point. */
  function Inserted(s: State, e: nat): State
    requires s.producer.StoreValue? && (Links(s) ==> s.tailBlock.Some? && s.tailBlock.value < |s.blocks|) && e < |s.ix.entries|
  {
    s.(ix := SetValue(s.ix, e, Some(s.producer.k)), blocks := LinkedBlocks(s), tailBlock := Some(s.producer.k))
  }

  lemma StoreValueShape(s: State, e: nat)
    requires s.producer.StoreValue? && IndexOk(s.ix) && (Links(s) ==> s.tailBlock.Some? && s.tailBlock.value < |s.blocks|)
    requires e == Cur(s.ix).index[Cur(s.ix).tail] < |s.ix.entries|
    ensures StoreValueStep(s) == NextBlock(Inserted(s, e), OpAfter(s.producer.op, s.producer.k), s.producer.n + 1)
  {
  }

  lemma KeepStoreValue(s: State, g: Ghost) returns (g': Ghost)
    requires InvWith(s, g) && s.producer.StoreValue?
    ensures IndexOk(s.ix) && (Links(s) ==> s.tailBlock.Some? && s.tailBlock.value < |s.blocks|)
    ensures InvWith(StoreValueStep(s), g')
    ensures Carries(g, g', Blocks(s.tailIndex))
  {
    var e := InsertNext(s, g);
    InsertBlocks(s, g, e);
    g' := InsertedGhost(g, e, s.producer.k);
    ReleasesInsert(s.released, g, e, s.producer.k);
    CarriesInsert(g, e, s.producer.k, Blocks(s.tailIndex));
  }

  lemma CarriesInsert(g: Ghost, e: nat, k: nat, n: nat)
    requires k < |g.owner|
    ensures Carries(g, InsertedGhost(g, e, k), n)
  {
  }

  /** The step as a whole, and the parts that concern the index, consumers and producer. */
  lemma InsertNext(s: State, g: Ghost) returns (e: nat)
    requires InvWith(s, g) && s.producer.StoreValue?
    ensures IndexOk(s.ix) && (Links(s) ==> s.tailBlock.Some? && s.tailBlock.value < |s.blocks|) && s.producer.k < |g.owner| && e < |s.ix.entries|
    ensures var s', g', C := StoreValueStep(s), InsertedGhost(g, e, s.producer.k), Blocks(s.tailIndex);
            && s' == Inserted(s, e).(producer := s'.producer, tailBlock := s'.tailBlock)
            && SpareOf(s'.producer).None? && PendingCount(s'.producer) == 0
            && IndexInv(s'.ix, g', C, Pos(s'.producer, |g'.info|, C), |g'.info|)
            && ConsumersInv(s.consumers, s'.ix, g', s.input, s.headIndex)
            && ProducerInv(s'.producer, s.tailIndex, s'.tailBlock, s'.blocks, s'.ix, g')
  {
    InsertProducer(s, g, 0);
    InsertIndex(s, g);
    e := EntryNow(s.ix, g.shift, s.producer.n);
    InsertPoint(s, g, e);
  }

  /** The point reached after an insertion. */
  lemma InsertPoint(s: State, g: Ghost, e: nat)
    requires InvWith(s, g) && s.producer.StoreValue? && IndexOk(s.ix) && e == Cur(s.ix).index[Cur(s.ix).tail] < |s.ix.entries|
    requires (Links(s) ==> s.tailBlock.Some? && s.tailBlock.value < |s.blocks|) && s.producer.k < |g.owner|
    requires SlotsOk(SetValue(s.ix, e, Some(s.producer.k)), InsertedGhost(g, e, s.producer.k))
    ensures var s', g', C := StoreValueStep(s), InsertedGhost(g, e, s.producer.k), Blocks(s.tailIndex);
            && s' == Inserted(s, e).(producer := s'.producer, tailBlock := s'.tailBlock)
            && SpareOf(s'.producer).None? && PendingCount(s'.producer) == 0 && Pos(s'.producer, |g'.info|, C) == |g'.info|
            && ProducerInv(s'.producer, s.tailIndex, s'.tailBlock, s'.blocks, s'.ix, g')
  {
    InsertProducer(s, g, e);
    StoreValueShape(s, e);
    NextBlockOk(Inserted(s, e), InsertedGhost(g, e, s.producer.k), OpAfter(s.producer.op, s.producer.k));
    var s' := StoreValueStep(s);
    SealProducer(s'.producer, s.tailIndex, s'.tailBlock, s'.blocks, s'.ix, InsertedGhost(g, e, s.producer.k));
  }

  // ---------------------------------------------------------------------------
  // Filling

  /** The block being written is the one of the index being written, and it is in use: the
      producer does not write through tailBlock after its release. */
  lemma WritesOwnBlock(s: State, g: Ghost)
    requires InvWith(s, g) && s.producer.Fill? && !AtStop(s)
    ensures var Fill(op, b, i) := s.producer;
            && s.tailIndex <= i < s.tailIndex + |op.items| && i / BLOCK_SIZE == b < |g.info| && g.info[b].stage.Live?
            && s.tailBlock == Some(g.info[b].blk)
  {
    ProducerFacts(s, g);
    var b := s.producer.b;
    if b < Blocks(s.tailIndex) {
      UncommittedLive(s, g, b);
    }
  }

  /** A block that is not claimed whole is in use. */
  lemma UncommittedLive(s: State, g: Ghost, b: nat)
    requires InvWith(s, g) && b < |g.info| && b < Blocks(s.tailIndex) && s.tailIndex < (b + 1) * BLOCK_SIZE
    ensures g.info[b].stage.Live?
  {
    assert Use(TheCounts, true) && Use(TheStages, true);
    assert Counted(s.blocks, g.info[b], b, s.consumers, s.headIndex);
  }

  /** A cell at or after the tail index is written: the elements enqueued before stay. */
  lemma DataFill(s: State, g: Ghost, b: nat, i: nat, block: Block, v: Value)
    requires InvWith(s, g) && b < |g.info| && g.info[b].stage.Live? && i / BLOCK_SIZE == b && i >= |s.input|
    requires g.info[b].blk < |s.blocks| && |s.blocks[g.info[b].blk].cells| == BLOCK_SIZE
    requires block.cells == s.blocks[g.info[b].blk].cells[i % BLOCK_SIZE := Val(v)]
    ensures DataInv(s.blocks[g.info[b].blk := block], g.info, s.input, s.consumers, s.headIndex)
  {
    assert Use(TheData, true);
    var blocks' := s.blocks[g.info[b].blk := block];
    forall x | 0 <= x < |s.input|
      ensures x / BLOCK_SIZE < |g.info| && CellOk(blocks', g.info[x / BLOCK_SIZE], x, s.input, s.consumers, s.headIndex)
    {
      assert CellOk(s.blocks, g.info[x / BLOCK_SIZE], x, s.input, s.consumers, s.headIndex);
      if g.info[x / BLOCK_SIZE].stage.Live? && x / BLOCK_SIZE != b { BlocksDiffer(s, g, x / BLOCK_SIZE, b); }
    }
    forall a | 0 <= a < |g.info| ensures AllRaw(blocks', g.info[a]) {
      assert AllRaw(s.blocks, g.info[a]);
      if a != b && !g.info[a].stage.Dead? { BlocksDiffer(s, g, a, b); }
    }
  }

  lemma FilledWrite(s: State, g: Ghost, b: nat, i: nat, block: Block, items: seq<Value>)
    requires InvWith(s, g) && b < |g.info| && g.info[b].stage.Live? && s.tailIndex <= i < s.tailIndex + |items| && i / BLOCK_SIZE == b
    requires g.info[b].blk < |s.blocks| && |s.blocks[g.info[b].blk].cells| == BLOCK_SIZE
    requires block.cells == s.blocks[g.info[b].blk].cells[i % BLOCK_SIZE := Val(items[i - s.tailIndex])]
    requires Filled(s.blocks, g.info, s.tailIndex, items, i)
    ensures Filled(s.blocks[g.info[b].blk := block], g.info, s.tailIndex, items, i + 1)
  {
    var blocks' := s.blocks[g.info[b].blk := block];
    forall x | s.tailIndex <= x < i + 1 ensures FilledAt(blocks', g.info, s.tailIndex, items, x) {
      if x < i {
        assert FilledAt(s.blocks, g.info, s.tailIndex, items, x);
        if x / BLOCK_SIZE != b { UncommittedKept(s, g, x / BLOCK_SIZE); BlocksDiffer(s, g, x / BLOCK_SIZE, b); }
      }
    }
  }

  lemma KeepFill(s: State, g: Ghost)
    requires InvWith(s, g) && s.producer.Fill? && !AtStop(s)
    ensures s.tailIndex <= s.producer.i && s.tailBlock.Some? && s.tailBlock.value < |s.blocks|
    ensures |s.blocks[s.tailBlock.value].cells| == BLOCK_SIZE
    ensures InvWith(FillStep(s), g)
  {
    var Fill(op, b, i) := s.producer;
    WritesOwnBlock(s, g);
    BlockFacts(s, g, b);
    var k := s.tailBlock.value;
    var block := s.blocks[k].(cells := s.blocks[k].cells[i % BLOCK_SIZE := Val(op.items[i - s.tailIndex])]);
    ProducerFill(s, g, block);
    BlocksSame(s.blocks, s.holder, g, SpareOf(s.producer), k, block);
    CountBlock(s.blocks, g.info, s.consumers, s.headIndex, k, block);
    DataFill(s, g, b, i, block, op.items[i - s.tailIndex]);
    FillShape(s, block);
  }

  lemma FillShape(s: State, block: Block)
    requires s.producer.Fill? && !AtStop(s) && s.tailIndex <= s.producer.i && s.tailBlock.Some? && s.tailBlock.value < |s.blocks|
    requires |s.blocks[s.tailBlock.value].cells| == BLOCK_SIZE
    requires var Fill(op, b, i) := s.producer;
             var was := s.blocks[s.tailBlock.value];
             block == was.(cells := was.cells[i % BLOCK_SIZE := Val(op.items[i - s.tailIndex])])
    ensures var Fill(op, b, i) := s.producer;
            FillStep(s) == At(s.(blocks := s.blocks[s.tailBlock.value := block]), Fill(op, b, i + 1))
  {
  }

  lemma ProducerFill(s: State, g: Ghost, block: Block)
    requires InvWith(s, g) && s.producer.Fill? && !AtStop(s) && s.tailIndex <= s.producer.i
    requires var Fill(op, b, i) := s.producer;
             && i < s.tailIndex + |op.items| && i / BLOCK_SIZE == b < |g.info| && g.info[b].stage.Live? && s.tailBlock == Some(g.info[b].blk)
             && g.info[b].blk < |s.blocks| && |s.blocks[g.info[b].blk].cells| == BLOCK_SIZE
             && block == s.blocks[g.info[b].blk].(cells := s.blocks[g.info[b].blk].cells[i % BLOCK_SIZE := Val(op.items[i - s.tailIndex])])
    ensures var Fill(op, b, i) := s.producer;
            ProducerInv(Fill(op, b, i + 1), s.tailIndex, s.tailBlock, s.blocks[g.info[b].blk := block], s.ix, g)
  {
    var Fill(op, b, i) := s.producer;
    ProducerFacts(s, g);
    FilledWrite(s, g, b, i, block, op.items);
    LinkedSame(s.blocks, g.info, Blocks(s.tailIndex), s.tailIndex % BLOCK_SIZE != 0, s.blocks[g.info[b].blk := block]);
  }

  /** At the end of a block: to the next one of the chain, or done with the last. */
  lemma KeepFillTurn(s: State, g: Ghost)
    requires InvWith(s, g) && s.producer.Fill? && AtStop(s)
    ensures s.tailIndex <= s.producer.i
    ensures s.tailBlock != s.producer.op.end ==>
              s.tailBlock.Some? && s.tailBlock.value < |s.blocks| && |s.blocks[s.tailBlock.value].cells| == BLOCK_SIZE
    ensures InvWith(FillStep(s), g)
  {
    var Fill(op, b, i) := s.producer;
    ProducerFacts(s, g);
    if s.tailBlock == op.end {
      LastIsEnd(s, g);
      KeepOwn(s, g, Commit(op), s.tailBlock);
    } else {
      TailBlockKept(s, g, b);
      BlockFacts(s, g, b);
      NextInChain(s, g);
      KeepOwn(s, g, Fill(op, i / BLOCK_SIZE, i), s.blocks[s.tailBlock.value].next);
    }
  }

  /** The code's assertion at the end of the filling loop: all elements are constructed. */
  lemma LastIsEnd(s: State, g: Ghost)
    requires InvWith(s, g) && s.producer.Fill? && AtStop(s) && s.tailBlock == s.producer.op.end
    ensures s.producer.i == s.tailIndex + |s.producer.op.items|
  {
    var Fill(op, b, i) := s.producer;
    ProducerFacts(s, g);
    if |op.items| > 0 && b != |g.info| - 1 {
      TailBlockKept(s, g, b);
      TailBlockKept(s, g, |g.info| - 1);
      BlocksDiffer(s, g, b, |g.info| - 1);
    }
  }

  lemma NextInChain(s: State, g: Ghost)
    requires s.producer.Fill? && AtStop(s) && s.tailBlock != s.producer.op.end
    requires ProducerAt(s.producer, s.tailIndex, s.tailBlock, s.blocks, s.ix, g) && s.tailBlock.Some? && s.tailBlock.value < |s.blocks|
    ensures var Fill(op, b, i) := s.producer;
            ProducerAt(Fill(op, i / BLOCK_SIZE, i), s.tailIndex, s.blocks[s.tailBlock.value].next, s.blocks, s.ix, g)
  {
    var b := s.producer.b;
    assert b < |g.info| - 1;
    if b >= Blocks(s.tailIndex) { assert LinkAt(s.blocks, g.info, b); }
  }

  // ---------------------------------------------------------------------------
  // Commit

  lemma IndexCommit(ix: Index, g: Ghost, committed: nat)
    requires IndexInv(ix, g, committed, |g.info|, |g.info|)
    ensures IndexInv(ix, g, |g.info|, |g.info|, |g.info|)
  {
    assert Use(TheIndex, true);
    assert |g.info| == committed || EntryOf(ix, g, |g.info| - 1).key.Some?;
  }

  lemma ConsumersCommit(consumers: seq<Consumer>, ix: Index, g: Ghost, input: seq<Value>, head: nat, items: seq<Value>)
    requires ConsumersInv(consumers, ix, g, input, head)
    ensures ConsumersInv(consumers, ix, g, input + items, head)
  {
    assert Use(TheConsumers, true);
    forall c | 0 <= c < |consumers| ensures RangeOk(consumers[c], input + items, head) {
      assert RangeOk(consumers[c], input, head);
      assert (input + items)[consumers[c].first..consumers[c].i] == input[consumers[c].first..consumers[c].i];
    }
  }

  lemma DataCommit(blocks: seq<Block>, info: seq<Info>, input: seq<Value>, consumers: seq<Consumer>, head: nat, items: seq<Value>)
    requires DataInv(blocks, info, input, consumers, head) && head <= |input|
    requires Filled(blocks, info, |input|, items, |input| + |items|)
    ensures DataInv(blocks, info, input + items, consumers, head)
  {
    assert Use(TheData, true);
    forall i | 0 <= i < |input + items|
      ensures i / BLOCK_SIZE < |info| && CellOk(blocks, info[i / BLOCK_SIZE], i, input + items, consumers, head)
    {
      if i < |input| { assert CellOk(blocks, info[i / BLOCK_SIZE], i, input, consumers, head); }
      else { assert FilledAt(blocks, info, |input|, items, i); }
    }
  }

  lemma DeliveriesCommit(delivered: seq<Delivery>, input: seq<Value>, consumers: seq<Consumer>, head: nat, items: seq<Value>)
    requires DeliveriesInv(delivered, input, consumers, head)
    ensures DeliveriesInv(delivered, input + items, consumers, head)
  {
    assert Use(TheDeliveries, true);
    forall p | 0 <= p < |delivered| ensures DeliveryOk(delivered[p], input + items, consumers, head) {
      assert DeliveryOk(delivered[p], input, consumers, head);
    }
  }

  lemma StagesCommit(info: seq<Info>, committed: nat, consumers: seq<Consumer>)
    requires StagesInv(info, committed, consumers) && AllLive(info, committed)
    ensures StagesInv(info, |info|, consumers)
  {
    assert Use(TheStages, true);
    forall b | 0 <= b < |info| ensures StageOk(info[b].stage, b, consumers) {}
  }

  lemma ProducerCommit(s: State, g: Ghost)
    requires InvWith(s, g) && s.producer.Commit?
    ensures ProducerInv(Idle, s.tailIndex + |s.producer.op.items|, s.tailBlock, s.blocks, s.ix, g)
    ensures |g.info| == Blocks(s.tailIndex + |s.producer.op.items|) && AllLive(g.info, Blocks(s.tailIndex))
    ensures Filled(s.blocks, g.info, s.tailIndex, s.producer.op.items, s.tailIndex + |s.producer.op.items|)
  {
    ProducerFacts(s, g);
  }

  lemma KeepCommit(s: State, g: Ghost)
    requires InvWith(s, g) && s.producer.Commit?
    ensures InvWith(CommitStep(s), g)
  {
    CommitJoin(s, g, s.producer.op.items);
    CommitShape(s);
  }

  lemma CommitJoin(s: State, g: Ghost, items: seq<Value>)
    requires InvWith(s, g) && s.producer.Commit? && items == s.producer.op.items
    ensures InvWith(s.(tailIndex := s.tailIndex + |items|, input := s.input + items, log := s.log + [Done(items, true)], producer := Idle), g)
  {
    CommitParts(s, g);
    LogCommit(s.input, s.log, items);
    CommitSeal(s, g, items, s.log + [Done(items, true)]);
  }

  /** The parts make up the invariant of the step's result. */
  lemma CommitSeal(s: State, g: Ghost, items: seq<Value>, log: seq<Done>)
    requires InvWith(s, g) && s.producer.Commit? && |g.info| == Blocks(s.tailIndex + |items|) && LogInv(s.input + items, log)
    requires IndexInv(s.ix, g, |g.info|, |g.info|, |g.info|) && StagesInv(g.info, |g.info|, s.consumers)
    requires ConsumersInv(s.consumers, s.ix, g, s.input + items, s.headIndex)
    requires DataInv(s.blocks, g.info, s.input + items, s.consumers, s.headIndex)
    requires DeliveriesInv(s.delivered, s.input + items, s.consumers, s.headIndex)
    requires ProducerInv(Idle, s.tailIndex + |items|, s.tailBlock, s.blocks, s.ix, g)
    ensures InvWith(s.(tailIndex := s.tailIndex + |items|, input := s.input + items, log := log, producer := Idle), g)
  {
  }

  lemma CommitShape(s: State)
    requires s.producer.Commit?
    ensures var items := s.producer.op.items;
            CommitStep(s) == s.(tailIndex := s.tailIndex + |items|, input := s.input + items, log := s.log + [Done(items, true)], producer := Idle)
  {
  }

  lemma CommitParts(s: State, g: Ghost)
    requires InvWith(s, g) && s.producer.Commit?
    ensures var items := s.producer.op.items;
            && |g.info| == Blocks(s.tailIndex + |items|)
            && IndexInv(s.ix, g, |g.info|, |g.info|, |g.info|) && StagesInv(g.info, |g.info|, s.consumers)
            && ConsumersInv(s.consumers, s.ix, g, s.input + items, s.headIndex)
            && DataInv(s.blocks, g.info, s.input + items, s.consumers, s.headIndex)
            && DeliveriesInv(s.delivered, s.input + items, s.consumers, s.headIndex)
            && ProducerInv(Idle, s.tailIndex + |items|, s.tailBlock, s.blocks, s.ix, g)
  {
    var items, C := s.producer.op.items, Blocks(s.tailIndex);
    ProducerCommit(s, g);
    IndexCommit(s.ix, g, C);
    ConsumersCommit(s.consumers, s.ix, g, s.input, s.headIndex, items);
    DataCommit(s.blocks, g.info, s.input, s.consumers, s.headIndex, items);
    DeliveriesCommit(s.delivered, s.input, s.consumers, s.headIndex, items);
    StagesCommit(g.info, C, s.consumers);
  }

  lemma LogCommit(input: seq<Value>, log: seq<Done>, items: seq<Value>)
    requires LogInv(input, log)
    ensures LogInv(input + items, log + [Done(items, true)]) && LogInv(input, log + [Done(items, false)])
  {
    assert Use(TheLog, true);
    assert (log + [Done(items, true)])[..|log|] == log;
    assert (log + [Done(items, false)])[..|log|] == log;
  }

  // ---------------------------------------------------------------------------
  // Rolling back: the entry whose block could not be had

  lemma IndexUnpend(ix: Index, g: Ghost, committed: nat, n: nat)
    requires IndexInv(ix, g, committed, n, n + 1) && |g.info| == n && SlotsOk(ix, g) && EntryOf(ix, g, n).value.None?
    ensures IndexInv(ix, g, committed, n, n)
  {
    assert Use(TheIndex, true);
    var bound := n + 1;
    forall b | 0 <= b < |g.info| ensures Held(ix, g, b, n) { assert Held(ix, g, b, bound); }
  }

  /** The pending entry has the key of a block number that is not in use. */
  lemma PendingApart(ix: Index, g: Ghost, committed: nat, n: nat, bound: nat)
    requires IndexInv(ix, g, committed, n, bound) && |g.info| == n && bound == n + 1 && SlotsOk(ix, g)
    ensures forall b :: 0 <= b < n && Occupies(g.info[b].stage) ==> g.info[b].entry != EntryNow(ix, g.shift, n)
  {
    assert Use(TheIndex, true);
    assert EntryOf(ix, g, n).key == Some(n);
    forall b | 0 <= b < n && Occupies(g.info[b].stage) ensures g.info[b].entry != EntryNow(ix, g.shift, n) {
      assert Held(ix, g, b, bound);
    }
  }

  lemma ClearFacts(s: State, g: Ghost)
    requires InvWith(s, g) && s.producer.ClearEntry?
    ensures SlotsOk(s.ix, g) && s.producer.n == |g.info| && s.producer.e == EntryNow(s.ix, g.shift, |g.info|)
    ensures ProducerInv(UndoEntry(s.producer.op, Blocks(s.tailIndex), s.producer.op.first), s.tailIndex, s.tailBlock, s.blocks,
                        SetValue(s.ix, s.producer.e, None), g)
  {
    ProducerFacts(s, g);
    SlotsValue(s.ix, g, s.producer.e, None);
    UndoOk(s.(ix := SetValue(s.ix, s.producer.e, None)), g, s.producer.op);
  }

  lemma ClearParts(s: State, g: Ghost)
    requires InvWith(s, g) && s.producer.ClearEntry? && SlotsOk(s.ix, g)
    requires s.producer.n == |g.info| && s.producer.e == EntryNow(s.ix, g.shift, |g.info|)
    ensures IndexInv(SetValue(s.ix, s.producer.e, None), g, Blocks(s.tailIndex), |g.info|, |g.info|)
    ensures ConsumersInv(s.consumers, SetValue(s.ix, s.producer.e, None), g, s.input, s.headIndex)
  {
    var n, e, C := s.producer.n, s.producer.e, Blocks(s.tailIndex);
    PendingApart(s.ix, g, C, n, n + 1);
    IndexClear(s.ix, g, C, n, n + 1, e);
    SlotsValue(s.ix, g, e, None);
    IndexUnpend(SetValue(s.ix, e, None), g, C, n);
    ConsumersValue(s.consumers, s.ix, g, s.input, s.headIndex, e, None);
  }

  lemma KeepClearEntry(s: State, g: Ghost)
    requires InvWith(s, g) && s.producer.ClearEntry?
    ensures s.producer.e < |s.ix.entries| && InvWith(ClearEntryStep(s), g)
  {
    ClearFacts(s, g);
    ClearParts(s, g);
  }

  // ---------------------------------------------------------------------------
  // Rolling back: an inserted block

  /** The producer's own lookup finds the entry of block b, with its number and block as the
      code asserts, from whatever tail it has got back to. */
  lemma UndoLookup(ix: Index, g: Ghost, committed: nat, pos: int, bound: nat, b: nat)
    requires IndexInv(ix, g, committed, pos, bound) && SlotsOk(ix, g) && committed <= pos - 1 < bound
    requires b < |g.info| && g.info[b].stage.Live?
    ensures var h := Cur(ix);
            && KeyAt(ix, |ix.headers| - 1, h.tail) == Some(pos - 1)
            && Walk(|h.index|, h.tail, b - (pos - 1)) == SlotNow(ix, g.shift, b) < |h.index|
            && h.index[Walk(|h.index|, h.tail, b - (pos - 1))] == EntryNow(ix, g.shift, b)
    ensures Lookup(ix, |ix.headers| - 1, b) == Some(Entry(Some(b), Some(g.info[b].blk)))
  {
    assert Use(TheIndex, true);
    assert EntryOf(ix, g, pos - 1).key == Some(pos - 1);
    LookupFindsSlot(ix, g.shift, |g.shift| - 1, Cur(ix).tail, b);
    WalkBound(|Cur(ix).index|, g.shift[|g.shift| - 1], b);
    assert Held(ix, g, b, bound);
  }

  lemma IndexUndo(ix: Index, g: Ghost, committed: nat, pos: int, bound: nat, b: nat)
    requires IndexInv(ix, g, committed, pos, bound) && SlotsOk(ix, g) && committed <= b < |g.info| && g.info[b].stage.Live?
    ensures IndexInv(SetValue(ix, EntryNow(ix, g.shift, b), None), WithStage(g, b, Undone), committed, pos, bound)
  {
    assert Use(TheIndex, true);
    var e := EntryNow(ix, g.shift, b);
    var ix', g' := SetValue(ix, e, None), WithStage(g, b, Undone);
    SlotsValue(ix, g, e, None);
    assert SlotsOk(ix', g');
    assert Held(ix, g, b, bound);
    forall a | 0 <= a < |g.info| ensures Held(ix', g', a, bound) { assert Held(ix, g, a, bound); }
    forall a | committed <= a < bound ensures EntryOf(ix', g', a).key == Some(a) { assert EntryOf(ix, g, a).key == Some(a); }
    forall a | bound <= a < g.high ensures EntryOf(ix', g', a) == Entry(Some(a), None) {
      assert EntryOf(ix, g, a) == Entry(Some(a), None);
    }
    forall a | 0 <= a < |g.info| && g'.info[a].stage.Undone? ensures EntryOf(ix', g', a).value.None? {
      if a != b { assert EntryOf(ix, g, a).value.None?; }
    }
    if AnyInUse(g'.info, committed) {
      var a :| 0 <= a < committed && a < |g'.info| && Occupies(g'.info[a].stage);
      assert Occupies(g.info[a].stage);
    }
  }

  lemma CountUndo(blocks: seq<Block>, info: seq<Info>, consumers: seq<Consumer>, head: nat, b: nat)
    requires CountInv(blocks, info, consumers, head) && b < |info|
    ensures CountInv(blocks, info[b := info[b].(stage := Undone)], consumers, head)
  {
    assert Use(TheCounts, true);
    var info' := info[b := info[b].(stage := Undone)];
    forall a | 0 <= a < |info'| ensures Counted(blocks, info'[a], a, consumers, head) {
      if a != b { assert Counted(blocks, info[a], a, consumers, head); }
    }
  }

  lemma DataUndo(blocks: seq<Block>, info: seq<Info>, input: seq<Value>, consumers: seq<Consumer>, head: nat, b: nat)
    requires DataInv(blocks, info, input, consumers, head) && b < |info|
    ensures DataInv(blocks, info[b := info[b].(stage := Undone)], input, consumers, head)
  {
    assert Use(TheData, true);
    var info' := info[b := info[b].(stage := Undone)];
    forall i | 0 <= i < |input|
      ensures i / BLOCK_SIZE < |info'| && CellOk(blocks, info'[i / BLOCK_SIZE], i, input, consumers, head)
    {
      assert CellOk(blocks, info[i / BLOCK_SIZE], i, input, consumers, head);
    }
    forall a | 0 <= a < |info'| ensures AllRaw(blocks, info'[a]) { if a != b { assert AllRaw(blocks, info[a]); } }
  }

  lemma StagesUndo(info: seq<Info>, committed: nat, consumers: seq<Consumer>, b: nat)
    requires StagesInv(info, committed, consumers) && committed <= b < |info|
    ensures StagesInv(info[b := info[b].(stage := Undone)], committed, consumers)
    ensures info[b].stage.Live? || info[b].stage.Undone?
  {
    assert Use(TheStages, true);
    var info' := info[b := info[b].(stage := Undone)];
    forall a | 0 <= a < |info'| ensures StageOk(info'[a].stage, a, consumers) { assert StageOk(info[a].stage, a, consumers); }
  }

  lemma ConsumersUndo(consumers: seq<Consumer>, ix: Index, g: Ghost, input: seq<Value>, head: nat, b: nat)
    requires ConsumersInv(consumers, ix, g, input, head) && b < |g.info| && g.info[b].stage.Live?
    ensures ConsumersInv(consumers, ix, WithStage(g, b, Undone), input, head)
  {
    assert Use(TheConsumers, true);
    assert SlotsOk(ix, WithStage(g, b, Undone));
    forall d | 0 <= d < |consumers| ensures PcOk(consumers[d], d, ix, WithStage(g, b, Undone)) {
      PcStage(consumers[d], d, ix, g, b, Undone);
    }
  }

  lemma ProducerUndo(s: State, g: Ghost, ix': Index)
    requires s.producer.UndoEntry? && ProducerInv(s.producer, s.tailIndex, s.tailBlock, s.blocks, s.ix, g) && s.producer.at.Some?
    requires s.producer.b < |g.info| && SlotsOk(ix', WithStage(g, s.producer.b, Undone))
    ensures ProducerInv(UndoTail(s.producer.op, s.producer.b, s.producer.at.value), s.tailIndex, s.tailBlock, s.blocks, ix',
                        WithStage(g, s.producer.b, Undone))
  {
    var b, C, partial := s.producer.b, Blocks(s.tailIndex), s.tailIndex % BLOCK_SIZE != 0;
    assert Use(TheProducer, true);
    LinksStage(s.blocks, g, C, partial, b, Undone);
  }

  /** What the producer finds at a block that it rolls back. */
  lemma UndoFacts(s: State, g: Ghost)
    requires InvWith(s, g) && s.producer.UndoEntry? && s.producer.at.Some?
    ensures SlotsOk(s.ix, g) && Blocks(s.tailIndex) <= s.producer.b < |g.info| && g.info[s.producer.b].stage.Live?
    ensures var e := EntryNow(s.ix, g.shift, s.producer.b);
            UndoEntryStep(s) == At(s.(ix := SetValue(s.ix, e, None)), UndoTail(s.producer.op, s.producer.b, s.producer.at.value))
  {
    var C := Blocks(s.tailIndex);
    ProducerFacts(s, g);
    StagesUndo(g.info, C, s.consumers, s.producer.b);
    UndoLookup(s.ix, g, C, Pos(s.producer, |g.info|, C), |g.info|, s.producer.b);
  }

  /** The code's assertion on the entry found. */
  lemma UndoFound(s: State, g: Ghost)
    requires InvWith(s, g) && s.producer.UndoEntry? && s.producer.at.Some?
    ensures IndexOk(s.ix) && Lookup(s.ix, |s.ix.headers| - 1, s.producer.b) == Some(Entry(Some(s.producer.b), s.producer.at))
  {
    var C := Blocks(s.tailIndex);
    ProducerFacts(s, g);
    StagesUndo(g.info, C, s.consumers, s.producer.b);
    UndoLookup(s.ix, g, C, Pos(s.producer, |g.info|, C), |g.info|, s.producer.b);
  }

  lemma UndoIndex(s: State, g: Ghost, b: nat)
    requires InvWith(s, g) && SlotsOk(s.ix, g) && Blocks(s.tailIndex) <= b < |g.info| && g.info[b].stage.Live?
    ensures var e, g' := EntryNow(s.ix, g.shift, b), WithStage(g, b, Undone);
            && SlotsOk(SetValue(s.ix, e, None), g')
            && IndexInv(SetValue(s.ix, e, None), g', Blocks(s.tailIndex), Pos(s.producer, |g.info|, Blocks(s.tailIndex)), |g.info| + PendingCount(s.producer))
            && ConsumersInv(s.consumers, SetValue(s.ix, e, None), g', s.input, s.headIndex)
  {
    var e, C := EntryNow(s.ix, g.shift, b), Blocks(s.tailIndex);
    IndexUndo(s.ix, g, C, Pos(s.producer, |g.info|, C), |g.info| + PendingCount(s.producer), b);
    ConsumersUndo(s.consumers, s.ix, g, s.input, s.headIndex, b);
    ConsumersValue(s.consumers, s.ix, WithStage(g, b, Undone), s.input, s.headIndex, e, None);
    SlotsValue(s.ix, g, e, None);
    assert SlotsOk(SetValue(s.ix, e, None), WithStage(g, b, Undone));
  }

  lemma KeepUndoEntry(s: State, g: Ghost) returns (g': Ghost)
    requires InvWith(s, g) && s.producer.UndoEntry? && s.producer.at.Some?
    ensures IndexOk(s.ix) && InvWith(UndoEntryStep(s), g')
    ensures Carries(g, g', Blocks(s.tailIndex))
  {
    UndoFacts(s, g);
    CarriesStage(g, s.producer.b, Undone, Blocks(s.tailIndex));
    g' := WithStage(g, s.producer.b, Undone);
    KeepUndoAt(s, g, s.producer.b, EntryNow(s.ix, g.shift, s.producer.b));
  }

  lemma KeepUndoAt(s: State, g: Ghost, b: nat, e: nat)
    requires InvWith(s, g) && s.producer.UndoEntry? && s.producer.at.Some? && b == s.producer.b
    requires SlotsOk(s.ix, g) && Blocks(s.tailIndex) <= b < |g.info| && g.info[b].stage.Live? && e == EntryNow(s.ix, g.shift, b)
    ensures InvWith(At(s.(ix := SetValue(s.ix, e, None)), UndoTail(s.producer.op, b, s.producer.at.value)), WithStage(g, b, Undone))
  {
    UndoIndex(s, g, b);
    UndoRest(s, g, b);
    ProducerUndo(s, g, SetValue(s.ix, e, None));
    UndoJoin(s, g, UndoTail(s.producer.op, b, s.producer.at.value), SetValue(s.ix, e, None), WithStage(g, b, Undone));
  }

  /** The parts make up the invariant of the step's result. */
  lemma UndoJoin(s: State, g: Ghost, p: Producer, ix: Index, g': Ghost)
    requires InvWith(s, g) && s.producer.UndoEntry? && p.UndoTail? && p.b == s.producer.b && |g'.info| == |g.info|
    requires var C := Blocks(s.tailIndex); IndexInv(ix, g', C, Pos(s.producer, |g.info|, C), |g.info| + PendingCount(s.producer))
    requires ConsumersInv(s.consumers, ix, g', s.input, s.headIndex)
    requires ProducerInv(p, s.tailIndex, s.tailBlock, s.blocks, ix, g')
    requires BlocksInv(s.blocks, s.holder, g', None) && ReleasesInv(s.released, g'.info)
    requires CountInv(s.blocks, g'.info, s.consumers, s.headIndex) && StagesInv(g'.info, Blocks(s.tailIndex), s.consumers)
    requires DataInv(s.blocks, g'.info, s.input, s.consumers, s.headIndex)
    ensures InvWith(At(s.(ix := ix), p), g')
  {
  }

  /** Blocks, counts, cells and stages when number b is undone. */
  lemma UndoRest(s: State, g: Ghost, b: nat)
    requires InvWith(s, g) && Blocks(s.tailIndex) <= b < |g.info| && g.info[b].stage.Live? && SpareOf(s.producer).None?
    ensures var g' := WithStage(g, b, Undone);
            && BlocksInv(s.blocks, s.holder, g', None) && ReleasesInv(s.released, g'.info)
            && CountInv(s.blocks, g'.info, s.consumers, s.headIndex) && StagesInv(g'.info, Blocks(s.tailIndex), s.consumers)
            && DataInv(s.blocks, g'.info, s.input, s.consumers, s.headIndex)
  {
    BlocksStage(s.blocks, s.holder, g, None, b, Undone);
    ReleasesStage(s.released, g, b, Undone);
    CountUndo(s.blocks, g.info, s.consumers, s.headIndex, b);
    DataUndo(s.blocks, g.info, s.input, s.consumers, s.headIndex, b);
    StagesUndo(g.info, Blocks(s.tailIndex), s.consumers, b);
  }

  // ---------------------------------------------------------------------------
  // Rolling back: returning the blocks

  function ChainOwner(x: Owner, committed: nat): Owner
  {
    if x.Of? && x.b >= committed then Chain(x.b - committed) else x
  }

  function BlocksFrom(info: seq<Info>, c: nat): (r: seq<nat>)
    requires c <= |info|
    ensures |r| == |info| - c && forall p :: 0 <= p < |r| ==> r[p] == info[c + p].blk
    decreases |info| - c
  {
    if c == |info| then [] else [info[c].blk] + BlocksFrom(info, c + 1)
  }

  /** Block numbers from `committed` on are no more; their blocks are in the chain. */
  function UndoneGhost(g: Ghost, committed: nat): Ghost
    requires committed <= |g.info|
  {
    g.(info := g.info[..committed], given := 0,
       chain := BlocksFrom(g.info, committed),
       owner := seq(|g.owner|, k requires 0 <= k < |g.owner| => ChainOwner(g.owner[k], committed)))
  }

  lemma IndexUndone(ix: Index, g: Ghost, committed: nat)
    requires IndexInv(ix, g, committed, committed, |g.info|) && UndoneTo(g.info, committed, |g.info|) && committed <= |g.info|
    ensures IndexInv(ix, UndoneGhost(g, committed), committed, committed, committed)
  {
    assert Use(TheIndex, true);
    var g' := UndoneGhost(g, committed);
    assert SlotsOk(ix, g');
    forall b | 0 <= b < |g'.info| ensures Held(ix, g', b, committed) { assert Held(ix, g, b, |g.info|); }
    forall b | committed <= b < g.high ensures EntryOf(ix, g', b) == Entry(Some(b), None) {
      if b < |g.info| { assert EntryOf(ix, g, b).key == Some(b) && EntryOf(ix, g, b).value.None?; }
      else { assert EntryOf(ix, g, b) == Entry(Some(b), None); }
    }
    if AnyInUse(g'.info, committed) {
      var a :| 0 <= a < committed && a < |g'.info| && Occupies(g'.info[a].stage);
      assert Occupies(g.info[a].stage);
    }
  }

  lemma BlocksUndone(blocks: seq<Block>, holder: seq<Holder>, g: Ghost, committed: nat)
    requires BlocksInv(blocks, holder, g, None) && committed <= |g.info| && g.given == |g.chain|
    requires forall b :: committed <= b < |g.info| ==> !g.info[b].stage.Dead?
    ensures BlocksInv(blocks, holder, UndoneGhost(g, committed), None)
  {
    assert Use(TheBlocks, true);
    var g' := UndoneGhost(g, committed);
    forall k | 0 <= k < |blocks| ensures OwnerOk(k, g', None) { assert OwnerOk(k, g, None); }
    forall p | 0 <= p < |g'.chain| ensures g'.chain[p] < |blocks| && g'.owner[g'.chain[p]] == Chain(p) {
      assert g.owner[g.info[committed + p].blk] == Of(committed + p);
    }
  }

  lemma PcUndone(x: Consumer, c: nat, ix: Index, g: Ghost, committed: nat)
    requires SlotsOk(ix, g) && PcOk(x, c, ix, g) && committed <= |g.info| && x.i <= x.end <= committed * BLOCK_SIZE
    ensures SlotsOk(ix, UndoneGhost(g, committed)) && PcOk(x, c, ix, UndoneGhost(g, committed))
  {
    var g' := UndoneGhost(g, committed);
    assert SlotsOk(ix, g');
    if x.h < |g.shift| && Sees(x, ix, g) { assert Sees(x, ix, g'); }
  }

  lemma ConsumersUndone(consumers: seq<Consumer>, ix: Index, g: Ghost, input: seq<Value>, head: nat, committed: nat)
    requires ConsumersInv(consumers, ix, g, input, head) && committed <= |g.info| && head <= committed * BLOCK_SIZE
    ensures ConsumersInv(consumers, ix, UndoneGhost(g, committed), input, head)
  {
    assert Use(TheConsumers, true);
    assert SlotsOk(ix, UndoneGhost(g, committed));
    forall d | 0 <= d < |consumers| ensures PcOk(consumers[d], d, ix, UndoneGhost(g, committed)) {
      assert RangeOk(consumers[d], input, head);
      PcUndone(consumers[d], d, ix, g, committed);
    }
  }

  lemma CountPrefix(blocks: seq<Block>, info: seq<Info>, consumers: seq<Consumer>, head: nat, n: nat)
    requires CountInv(blocks, info, consumers, head) && n <= |info|
    ensures CountInv(blocks, info[..n], consumers, head)
  {
    assert Use(TheCounts, true);
    forall b | 0 <= b < n ensures Counted(blocks, info[..n][b], b, consumers, head) { assert Counted(blocks, info[b], b, consumers, head); }
  }

  lemma DataPrefix(blocks: seq<Block>, info: seq<Info>, input: seq<Value>, consumers: seq<Consumer>, head: nat, n: nat)
    requires DataInv(blocks, info, input, consumers, head) && n <= |info| && |input| <= n * BLOCK_SIZE
    ensures DataInv(blocks, info[..n], input, consumers, head)
  {
    assert Use(TheData, true);
    var info' := info[..n];
    forall i | 0 <= i < |input| ensures i / BLOCK_SIZE < |info'| && CellOk(blocks, info'[i / BLOCK_SIZE], i, input, consumers, head) {
      assert CellOk(blocks, info[i / BLOCK_SIZE], i, input, consumers, head);
    }
    forall a | 0 <= a < |info'| ensures AllRaw(blocks, info'[a]) { assert AllRaw(blocks, info[a]); }
  }

  lemma StagesPrefix(info: seq<Info>, committed: nat, consumers: seq<Consumer>)
    requires StagesInv(info, committed, consumers) && committed <= |info|
    ensures StagesInv(info[..committed], committed, consumers)
    ensures forall b :: committed <= b < |info| ==> !info[b].stage.Dead?
  {
    assert Use(TheStages, true);
    forall a | 0 <= a < committed ensures StageOk(info[..committed][a].stage, a, consumers) { assert StageOk(info[a].stage, a, consumers); }
  }

  lemma ProducerUndone(s: State, g: Ghost)
    requires s.producer.UndoEntry? && s.producer.at.None? && ProducerInv(s.producer, s.tailIndex, s.tailBlock, s.blocks, s.ix, g)
    ensures Blocks(s.tailIndex) <= s.producer.b == |g.info| && UndoneTo(g.info, Blocks(s.tailIndex), |g.info|) && g.given == |g.chain|
    ensures ProducerInv(GiveBack(s.producer.op, s.producer.op.first), s.tailIndex, s.tailBlock, s.blocks, s.ix, UndoneGhost(g, Blocks(s.tailIndex)))
  {
    assert Use(TheProducer, true);
    var C := Blocks(s.tailIndex);
    var g' := UndoneGhost(g, C);
    assert SlotsOk(s.ix, g');
    forall p | 0 <= p < |g'.chain| ensures ChainAt(s.blocks, g'.chain, p) {
      if p + 1 < |g'.chain| { assert LinkAt(s.blocks, g.info, C + p); }
    }
  }

  lemma KeepUndone(s: State, g: Ghost) returns (g': Ghost)
    requires InvWith(s, g) && s.producer.UndoEntry? && s.producer.at.None?
    ensures IndexOk(s.ix) && InvWith(UndoEntryStep(s), g')
    ensures Carries(g, g', Blocks(s.tailIndex))
  {
    var C := Blocks(s.tailIndex);
    TailFacts(s, g);
    ProducerUndone(s, g);
    g' := UndoneGhost(g, C);
    IndexUndone(s.ix, g, C);
    StagesPrefix(g.info, C, s.consumers);
    BlocksUndone(s.blocks, s.holder, g, C);
    ConsumersUndone(s.consumers, s.ix, g, s.input, s.headIndex, C);
    CountPrefix(s.blocks, g.info, s.consumers, s.headIndex, C);
    DataPrefix(s.blocks, g.info, s.input, s.consumers, s.headIndex, C);
    ReleasesPrefix(s.released, g.info, C);
  }

  lemma ReleasesPrefix(released: multiset<int>, info: seq<Info>, n: nat)
    requires ReleasesInv(released, info) && n <= |info| && forall b :: n <= b < |info| ==> !info[b].stage.Dead?
    ensures ReleasesInv(released, info[..n])
  {
    assert Use(TheReleases, true);
    forall b | b < 0 || b >= n ensures released[b] == 0 {}
  }

  function GivenGhost(g: Ghost): Ghost
    requires g.given < |g.chain| && g.chain[g.given] < |g.owner|
  {
    g.(given := g.given + 1, owner := g.owner[g.chain[g.given] := NotOurs])
  }

  lemma BlocksGive(blocks: seq<Block>, holder: seq<Holder>, g: Ghost)
    requires BlocksInv(blocks, holder, g, None) && g.given < |g.chain|
    ensures g.chain[g.given] < |blocks| == |holder| == |g.owner|
    ensures BlocksInv(blocks, holder[g.chain[g.given] := Pool], GivenGhost(g), None)
  {
    assert Use(TheBlocks, true);
    var k := g.chain[g.given];
    assert g.owner[k] == Chain(g.given);
    var g' := GivenGhost(g);
    forall j | 0 <= j < |blocks| ensures OwnerOk(j, g', None) { assert OwnerOk(j, g, None); }
  }

  lemma ProducerGive(s: State, g: Ghost)
    requires s.producer.GiveBack? && s.producer.at.Some? && ProducerAt(s.producer, s.tailIndex, s.tailBlock, s.blocks, s.ix, g)
    ensures g.given < |g.chain| && s.producer.at.value == g.chain[g.given] < |s.blocks| && |g.info| == Blocks(s.tailIndex)
    ensures g.chain[g.given] < |g.owner| ==>
              ProducerInv(GiveBack(s.producer.op, s.blocks[s.producer.at.value].next), s.tailIndex, s.tailBlock, s.blocks, s.ix, GivenGhost(g))
  {
    assert ChainAt(s.blocks, g.chain, g.given);
    if g.chain[g.given] < |g.owner| {
      assert SlotsOk(s.ix, GivenGhost(g));
      assert forall p :: g.given + 1 <= p < |g.chain| ==> ChainAt(s.blocks, g.chain, p);
    }
  }

  lemma KeepGiveBack(s: State, g: Ghost) returns (g': Ghost)
    requires InvWith(s, g) && s.producer.GiveBack? && s.producer.at.Some?
    ensures s.producer.at.value < |s.blocks| == |s.holder| && InvWith(GiveBackStep(s), g')
    ensures Carries(g, g', Blocks(s.tailIndex))
  {
    ProducerFacts(s, g);
    ProducerGive(s, g);
    BlocksGive(s.blocks, s.holder, g);
    g' := GivenGhost(g);
    IndexApart(s.ix, g, |g.info|, |g.info|, |g.info|, g');
    ConsumersApart(s.consumers, s.ix, g, s.input, s.headIndex, g');
  }

  lemma KeepGivenAll(s: State, g: Ghost)
    requires InvWith(s, g) && s.producer.GiveBack? && s.producer.at.None?
    ensures InvWith(GiveBackStep(s), g)
  {
    ProducerFacts(s, g);
    LogCommit(s.input, s.log, s.producer.op.items);
    assert ProducerInv(Idle, s.tailIndex, s.producer.op.startBlock, s.blocks, s.ix, g);
  }

  // ---------------------------------------------------------------------------
  // Other producers

  lemma BlocksElsewhere(blocks: seq<Block>, holder: seq<Holder>, g: Ghost, spare: Option<nat>, k: nat, block: Block, h: Holder)
    requires BlocksInv(blocks, holder, g, spare) && k < |blocks| && k < |holder| && !holder[k].Ours? && !h.Ours? && |block.cells| == BLOCK_SIZE
    ensures BlocksInv(blocks[k := block], holder[k := h], g, spare)
    ensures forall b :: 0 <= b < |g.info| && !g.info[b].stage.Dead? ==> g.info[b].blk != k
    ensures forall p :: g.given <= p < |g.chain| ==> g.chain[p] != k
    ensures spare != Some(k)
  {
    assert Use(TheBlocks, true);
  }

  lemma ProducerElsewhere(s: State, g: Ghost, k: nat, block: Block)
    requires InvWith(s, g) && k < |s.blocks|
    requires forall b :: 0 <= b < |g.info| && !g.info[b].stage.Dead? ==> g.info[b].blk != k
    requires forall p :: g.given <= p < |g.chain| ==> g.chain[p] != k
    requires SpareOf(s.producer) != Some(k)
    ensures ProducerInv(s.producer, s.tailIndex, s.tailBlock, s.blocks[k := block], s.ix, g)
  {
    var C, partial, blocks', p := Blocks(s.tailIndex), s.tailIndex % BLOCK_SIZE != 0, s.blocks[k := block], s.producer;
    ProducerFacts(s, g);
    NotThatBlock(s, g, k);
    if Linked(s.blocks, g.info, C, partial) { LinkedOther(s.blocks, g, C, partial, k, block); }
    if p.GiveBack? {
      forall q | g.given <= q < |g.chain| ensures ChainAt(blocks', g.chain, q) { assert ChainAt(s.blocks, g.chain, q); }
    }
    if p.Fill? { FilledElsewhere(s, g, k, block, p.op.items, p.i); }
    if p.Commit? { FilledElsewhere(s, g, k, block, p.op.items, s.tailIndex + |p.op.items|); }
  }

  lemma FilledElsewhere(s: State, g: Ghost, k: nat, block: Block, items: seq<Value>, i: nat)
    requires InvWith(s, g) && k < |s.blocks| && Filled(s.blocks, g.info, s.tailIndex, items, i)
    requires forall b :: 0 <= b < |g.info| && !g.info[b].stage.Dead? ==> g.info[b].blk != k
    ensures Filled(s.blocks[k := block], g.info, s.tailIndex, items, i)
  {
    var after := s.blocks[k := block];
    forall x | s.tailIndex <= x < i ensures FilledAt(after, g.info, s.tailIndex, items, x) {
      assert FilledAt(s.blocks, g.info, s.tailIndex, items, x);
      UncommittedKept(s, g, x / BLOCK_SIZE);
    }
  }

  /** Whatever other producers do with blocks that are not ours does not concern us. */
  lemma KeepOthers(s: State, g: Ghost, k: nat, block: Block, h: Holder)
    requires InvWith(s, g) && k < |s.blocks| && k < |s.holder| && !s.holder[k].Ours? && !h.Ours? && |block.cells| == BLOCK_SIZE
    ensures InvWith(s.(blocks := s.blocks[k := block], holder := s.holder[k := h]), g)
  {
    BlocksElsewhere(s.blocks, s.holder, g, SpareOf(s.producer), k, block, h);
    CountOther(s.blocks, g.info, s.consumers, s.headIndex, k, block);
    DataOther(s.blocks, g.info, s.input, s.consumers, s.headIndex, k, block);
    ProducerElsewhere(s, g, k, block);
  }
}
