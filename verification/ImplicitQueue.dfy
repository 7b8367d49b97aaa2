/** An implicit producer's sub-queue: one producer thread that enqueues in bulk (a single
    enqueue is a bulk of one), any number of consumers that move out the index ranges they
    have claimed (a single dequeue is a range of one). Blocks come from and go back to a
    pool shared with other producers. One step is one access to memory that another thread
    may touch. Indices are unbounded; block b holds the indices from b * BLOCK_SIZE. */
module ImplicitQueue {
  import opened Counting
  import opened Options
  import opened Slots
  import opened BlockIndex

  const BLOCK_SIZE: nat := 32

  /** Elements are pointers to vthreads. */
  type Value = nat

  /** Raw is memory without an object. */
  datatype Cell = Raw | Val(v: Value)

  /** count is elementsCompletelyDequeued. */
  datatype Block = Block(cells: seq<Cell>, count: nat, next: Option<nat>)

  /** Who has a block: the pool, another producer, or this one. */
  datatype Holder = Pool | Elsewhere | Ours

  /** Locals of a bulk enqueue. */
  datatype Op = Op(items: seq<Value>, startBlock: Option<nat>, first: Option<nat>, end: Option<nat>)

  datatype Producer =
    | Idle
    | Scan(op: Op, n: nat)                       // about to test the entry after the tail, for block n
    | Publish(op: Op, n: nat, junk: seq<Option<nat>>)  // it was in use: about to publish a larger index
    | StoreKey(op: Op, n: nat)                   // it is free: about to store the key
    | StoreTail(op: Op, n: nat)                  // about to publish the new tail
    | TakeBlock(op: Op, n: nat)                  // about to requisition a block
    | StoreValue(op: Op, n: nat, k: nat)         // has block k: about to store it in the entry
    | Fill(op: Op, b: nat, i: nat)               // constructing elements in block b, next is i
    | Commit(op: Op)                             // about to store tailIndex
    | Rewind(op: Op, n: nat)                     // no block: about to step the tail back
    | ClearEntry(op: Op, n: nat, e: nat)         // about to store null in the entry
    | UndoEntry(op: Op, b: nat, at: Option<nat>)  // chain at block `at`, number b: about to clear its entry
    | UndoTail(op: Op, b: nat, k: nat)           // about to step the tail back
    | GiveBack(op: Op, at: Option<nat>)          // about to put block `at` of the chain on the free list

  datatype CPC =
    | CIdle
    | LoadHeader | LoadTail | LoadKey   // get_block_index_index_for_index
    | LoadValue                         // about to load the block from the entry
    | Move                              // moving elements out of the block
    | Mark                              // about to add to the block's count
    | Unlink                            // completed the block: about to store null in the entry
    | Release                           // about to put the block on the free list

  /** A consumer of the range [first, end): elements below `i` are moved out, those below
      `from` are also marked. `h` and `j` are the header and slot, `t` the tail, `k` the block. */
  datatype Consumer = Consumer(pc: CPC, first: nat, end: nat, from: nat, i: nat,
                               h: nat, t: nat, j: nat, k: nat, out: seq<Value>)

  /** A finished bulk enqueue and whether it succeeded. */
  datatype Done = Done(items: seq<Value>, ok: bool)

  /** An element moved out to a consumer: its index and its value. */
  datatype Delivery = Delivery(i: nat, v: Value)

  /** `input` is the history of elements enqueued, `log` that of calls, `delivered` that of
      elements moved out, `released` that of the numbers of blocks put on the free list by
      their completers. */
  datatype State = State(
    ix: Index, blocks: seq<Block>, holder: seq<Holder>,
    tailIndex: nat, headIndex: nat, tailBlock: Option<nat>,
    input: seq<Value>, log: seq<Done>, delivered: seq<Delivery>, released: multiset<int>,
    producer: Producer, consumers: seq<Consumer>)

  /** Choices: the call, whether memory is to be had and which block, what a dequeue claims,
      and what other producers do with blocks that are not ours. */
  datatype Action =
    | Produce(items: seq<Value>, junk: Option<seq<Option<nat>>>, take: Option<nat>)
    | Consume(c: nat, n: nat)
    | Others(k: nat, block: Block, pool: bool)

  // ---------------------------------------------------------------------------
  // Producer

  function Blocks(n: nat): nat { (n + BLOCK_SIZE - 1) / BLOCK_SIZE }

  function At(s: State, p: Producer): State { s.(producer := p) }

  /** Into the filling loop, at the block of the tail index. */
  function StartFill(s: State, op: Op): State
  {
    s.(tailBlock := if s.tailIndex % BLOCK_SIZE == 0 && op.first.Some? then op.first else op.startBlock,
       producer := Fill(op, s.tailIndex / BLOCK_SIZE, s.tailIndex))
  }

  /** Next block to allocate, or none left. */
  function NextBlock(s: State, op: Op, n: nat): State
  {
    if n < Blocks(s.tailIndex + |op.items|) then At(s, Scan(op, n)) else StartFill(s, op)
  }

  function Begin(s: State, items: seq<Value>): State
  {
    NextBlock(s, Op(items, s.tailBlock, None, s.tailBlock), Blocks(s.tailIndex))
  }

  /** Undo all insertions of this call. */
  function Undo(s: State, op: Op): State { At(s, UndoEntry(op, Blocks(s.tailIndex), op.first)) }

  function ScanStep(s: State, junk: Option<seq<Option<nat>>>): State
    requires s.producer.Scan? && IndexOk(s.ix)
  {
    var Scan(op, n) := s.producer;
    var x := s.ix.entries[Candidate(s.ix)];
    if x.key.None? || x.value.None? then At(s, StoreKey(op, n))
    else if junk.Some? && |junk.value| == |Cur(s.ix).index| then At(s, Publish(op, n, junk.value))
    else Undo(s, op)
  }

  /** The new header, built privately, is stored; consumers may have cleared entries, the one
      found in use among them, since the test. */
  function PublishStep(s: State): State
    requires s.producer.Publish? && IndexOk(s.ix) && |s.producer.junk| == |Cur(s.ix).index|
  {
    At(s.(ix := Grow(s.ix, s.producer.junk)), StoreKey(s.producer.op, s.producer.n))
  }

  function StoreKeyStep(s: State): State
    requires s.producer.StoreKey? && IndexOk(s.ix)
  {
    At(s.(ix := SetKey(s.ix, Candidate(s.ix), s.producer.n)), StoreTail(s.producer.op, s.producer.n))
  }

  function StoreTailStep(s: State): State
    requires s.producer.StoreTail? && IndexOk(s.ix)
  {
    At(s.(ix := SetTail(s.ix, Next(|Cur(s.ix).index|, Cur(s.ix).tail))), TakeBlock(s.producer.op, s.producer.n))
  }

  /** requisition_block, and resetting the new block. */
  function TakeBlockStep(s: State, take: Option<nat>): State
    requires s.producer.TakeBlock?
  {
    var TakeBlock(op, n) := s.producer;
    if take.Some? && take.value < |s.blocks| && take.value < |s.holder| && s.holder[take.value].Pool? then
      var k := take.value;
      At(s.(holder := s.holder[k := Ours], blocks := s.blocks[k := s.blocks[k].(count := 0, next := None)]),
         StoreValue(op, n, k))
    else At(s, Rewind(op, n))
  }

  /** The new block is linked to the tail block, unless that one was full before the call
      and may have been released. */
  predicate Links(s: State)
    requires s.producer.StoreValue?
  {
    s.tailIndex % BLOCK_SIZE != 0 || s.producer.op.first.Some?
  }

  /** Storing the block in the index and linking it to the chain. */
  function StoreValueStep(s: State): State
    requires s.producer.StoreValue? && IndexOk(s.ix) && (Links(s) ==> s.tailBlock.Some? && s.tailBlock.value < |s.blocks|)
  {
    var StoreValue(op, n, k) := s.producer;
    var blocks := if Links(s) then s.blocks[s.tailBlock.value := s.blocks[s.tailBlock.value].(next := Some(k))] else s.blocks;
    var op' := op.(first := if op.first.None? then Some(k) else op.first, end := Some(k));
    NextBlock(s.(ix := SetValue(s.ix, Cur(s.ix).index[Cur(s.ix).tail], Some(k)), blocks := blocks, tailBlock := Some(k)),
              op', n + 1)
  }

  /** Where the call's elements in block b end. */
  function Stop(tail: nat, op: Op, b: nat): nat
  {
    if tail + |op.items| < (b + 1) * BLOCK_SIZE then tail + |op.items| else (b + 1) * BLOCK_SIZE
  }

  predicate AtStop(s: State)
    requires s.producer.Fill?
  {
    s.producer.i >= Stop(s.tailIndex, s.producer.op, s.producer.b)
  }

  /** One element, or on to the next block of the chain, or done. */
  function FillStep(s: State): State
    requires s.producer.Fill? && s.tailIndex <= s.producer.i
    requires !AtStop(s) || s.tailBlock != s.producer.op.end ==>
               s.tailBlock.Some? && s.tailBlock.value < |s.blocks| && |s.blocks[s.tailBlock.value].cells| == BLOCK_SIZE
  {
    var Fill(op, b, i) := s.producer;
    if !AtStop(s) then
      var k := s.tailBlock.value;
      var cells := s.blocks[k].cells[i % BLOCK_SIZE := Val(op.items[i - s.tailIndex])];
      At(s.(blocks := s.blocks[k := s.blocks[k].(cells := cells)]), Fill(op, b, i + 1))
    else if s.tailBlock == op.end then At(s, Commit(op))
    else At(s.(tailBlock := s.blocks[s.tailBlock.value].next), Fill(op, i / BLOCK_SIZE, i))
  }

  function CommitStep(s: State): State
    requires s.producer.Commit?
  {
    var items := s.producer.op.items;
    s.(tailIndex := s.tailIndex + |items|, input := s.input + items, log := s.log + [Done(items, true)], producer := Idle)
  }

  function RewindStep(s: State): State
    requires s.producer.Rewind? && IndexOk(s.ix)
  {
    At(s.(ix := StepBack(s.ix)), ClearEntry(s.producer.op, s.producer.n, Cur(s.ix).index[Cur(s.ix).tail]))
  }

  function ClearEntryStep(s: State): State
    requires s.producer.ClearEntry? && s.producer.e < |s.ix.entries|
  {
    Undo(s.(ix := SetValue(s.ix, s.producer.e, None)), s.producer.op)
  }

  /** Looking up the entry of block b from the tail and clearing it; at the end of the
      chain on to the free list. */
  function UndoEntryStep(s: State): State
    requires s.producer.UndoEntry? && IndexOk(s.ix)
  {
    var UndoEntry(op, b, at) := s.producer;
    var h := Cur(s.ix);
    var key := s.ix.entries[h.index[h.tail]].key;
    if at.None? then At(s, GiveBack(op, op.first))
    else if key.None? then s
    else
      WalkBound(|h.index|, h.tail, b - key.value);
      At(s.(ix := SetValue(s.ix, h.index[Walk(|h.index|, h.tail, b - key.value)], None)), UndoTail(op, b, at.value))
  }

  function UndoTailStep(s: State): State
    requires s.producer.UndoTail? && IndexOk(s.ix) && s.producer.k < |s.blocks|
  {
    At(s.(ix := StepBack(s.ix)), UndoEntry(s.producer.op, s.producer.b + 1, s.blocks[s.producer.k].next))
  }

  /** add_blocks_to_free_list: the next pointer is read before the block is added. */
  function GiveBackStep(s: State): State
    requires s.producer.GiveBack? && (s.producer.at.Some? ==> s.producer.at.value < |s.blocks| == |s.holder|)
  {
    var GiveBack(op, at) := s.producer;
    if at.None? then s.(tailBlock := op.startBlock, log := s.log + [Done(op.items, false)], producer := Idle)
    else At(s.(holder := s.holder[at.value := Pool]), GiveBack(op, s.blocks[at.value].next))
  }

  // ---------------------------------------------------------------------------
  // Consumers

  function SetC(s: State, c: nat, x: Consumer): State
    requires c < |s.consumers|
  {
    s.(consumers := s.consumers[c := x])
  }

  /** The claim; that the range lies below the tail index is the ticket protocol's doing. */
  function ClaimStep(s: State, c: nat, n: nat): State
    requires c < |s.consumers| && s.consumers[c].pc.CIdle?
  {
    if n == 0 || s.headIndex + n > s.tailIndex then s else
    SetC(s.(headIndex := s.headIndex + n), c,
         Consumer(LoadHeader, s.headIndex, s.headIndex + n, s.headIndex, s.headIndex, 0, 0, 0, 0, []))
  }

  /** Where the block of index `from` ends for this consumer. */
  function EndIndex(x: Consumer): nat
  {
    var e := (x.from / BLOCK_SIZE + 1) * BLOCK_SIZE;
    if x.end < e then x.end else e
  }

  function LoadKeyStep(s: State, c: nat): State
    requires c < |s.consumers| && IndexOk(s.ix)
    requires s.consumers[c].h < |s.ix.headers| && s.consumers[c].t < |s.ix.headers[s.consumers[c].h].index|
  {
    var x := s.consumers[c];
    var h := s.ix.headers[x.h];
    assert HeaderOk(h, |s.ix.entries|);
    var key := s.ix.entries[h.index[x.t]].key;
    if key.None? then s
    else SetC(s, c, x.(pc := LoadValue, j := Walk(|h.index|, x.t, x.from / BLOCK_SIZE - key.value)))
  }

  /** The entry in the consumer's slot. */
  function EntryAt(s: State, x: Consumer): (e: nat)
    requires IndexOk(s.ix) && x.h < |s.ix.headers| && x.j < |s.ix.headers[x.h].index|
    ensures e < |s.ix.entries|
  {
    assert HeaderOk(s.ix.headers[x.h], |s.ix.entries|);
    s.ix.headers[x.h].index[x.j]
  }

  function LoadValueStep(s: State, c: nat): State
    requires c < |s.consumers| && IndexOk(s.ix)
    requires s.consumers[c].h < |s.ix.headers| && s.consumers[c].j < |s.ix.headers[s.consumers[c].h].index|
  {
    var x := s.consumers[c];
    var v := s.ix.entries[EntryAt(s, x)].value;
    if v.None? then s else SetC(s, c, x.(pc := Move, k := v.value))
  }

  /** One element is moved out and destroyed. */
  function MoveStep(s: State, c: nat): State
    requires c < |s.consumers| && s.consumers[c].k < |s.blocks| && |s.blocks[s.consumers[c].k].cells| == BLOCK_SIZE
  {
    var x := s.consumers[c];
    if x.i >= EndIndex(x) then SetC(s, c, x.(pc := Mark))
    else
      var cell := s.blocks[x.k].cells[x.i % BLOCK_SIZE];
      if cell.Raw? then s
      else SetC(s.(blocks := s.blocks[x.k := s.blocks[x.k].(cells := s.blocks[x.k].cells[x.i % BLOCK_SIZE := Raw])],
                   delivered := s.delivered + [Delivery(x.i, cell.v)]), c,
                x.(i := x.i + 1, out := x.out + [cell.v]))
  }

  /** On to the next block of the range, one slot further, or done. */
  function Continue(x: Consumer, cap: nat): Consumer
  {
    if x.i >= x.end then x.(pc := CIdle) else x.(pc := LoadValue, j := Next(cap, x.j))
  }

  /** The block of the last index moved out. */
  function LastBlock(x: Consumer): int { (x.i - 1) / BLOCK_SIZE }

  /** set_many_empty. */
  function MarkStep(s: State, c: nat): State
    requires c < |s.consumers| && s.consumers[c].k < |s.blocks| && s.consumers[c].h < |s.ix.headers|
    requires s.consumers[c].from <= s.consumers[c].i
  {
    var x := s.consumers[c];
    var n := s.blocks[x.k].count + (x.i - x.from);
    SetC(s.(blocks := s.blocks[x.k := s.blocks[x.k].(count := n)]), c,
         if n == BLOCK_SIZE then x.(pc := Unlink, from := x.i)
         else Continue(x.(from := x.i), |s.ix.headers[x.h].index|))
  }

  function UnlinkStep(s: State, c: nat): State
    requires c < |s.consumers| && IndexOk(s.ix)
    requires s.consumers[c].h < |s.ix.headers| && s.consumers[c].j < |s.ix.headers[s.consumers[c].h].index|
  {
    var x := s.consumers[c];
    SetC(s.(ix := SetValue(s.ix, EntryAt(s, x), None)), c, x.(pc := Release))
  }

  function ReleaseStep(s: State, c: nat): State
    requires c < |s.consumers| && s.consumers[c].k < |s.holder| && s.consumers[c].h < |s.ix.headers|
  {
    var x := s.consumers[c];
    SetC(s.(holder := s.holder[x.k := Pool], released := s.released + multiset{LastBlock(x)}), c,
         Continue(x, |s.ix.headers[x.h].index|))
  }

  // ---------------------------------------------------------------------------
  // Invariant

  /** Life of a block number: in use; its completer about to unlink it; unlinked and about
      to be released; released. Undone: its insertion is being rolled back. */
  datatype Stage = Live | Closing(c: nat) | Unlinked(c: nat) | Dead | Undone

  /** The entry and block that block number b was given. */
  datatype Info = Info(entry: nat, blk: nat, stage: Stage)

  /** What a block of ours is for: block number b, just requisitioned, or in a chain of
      blocks on their way back. */
  datatype Owner = NotOurs | Of(b: nat) | Spare | Chain(p: nat)

  /** Witness. `high` bounds all keys ever stored, `chain[given..]` is still to be returned. */
  datatype Ghost = Ghost(shift: seq<nat>, high: nat, info: seq<Info>, owner: seq<Owner>, chain: seq<nat>, given: nat)

  /** The parts of the invariant. Each is stated under `forall u :: Use(part, u) ==> ...`, so
      that a proof looks into a part only if it concludes that part or says Use(part, true). */
  datatype Part = TheIndex | TheBlocks | TheCounts | TheStages | TheConsumers | TheData | TheProducer | TheReleases | TheDeliveries | TheLog

  predicate Use(part: Part, u: bool) { true }

  predicate Occupies(x: Stage) { x.Live? || x.Closing? }

  /** A block number keeps its entry and block, and does not come back into use. */
  predicate Follows(x: Info, x': Info)
  {
    x'.entry == x.entry && x'.blk == x.blk && (x.stage.Dead? ==> x'.stage.Dead?) && (Occupies(x'.stage) ==> Occupies(x.stage))
  }

  /** What is known of the numbers below n is carried over. */
  ghost predicate Carries(g: Ghost, g': Ghost, n: nat)
  {
    forall b :: 0 <= b < n && b < |g.info| ==> CarriesAt(g, g', b)
  }

  predicate CarriesAt(g: Ghost, g': Ghost, b: nat)
    requires b < |g.info|
  {
    b < |g'.info| && Follows(g.info[b], g'.info[b])
  }

  /** The key of the next block is stored, its value is not. */
  predicate Pending(p: Producer)
  {
    p.StoreTail? || p.TakeBlock? || p.StoreValue? || p.Rewind? || p.ClearEntry?
  }

  function PendingCount(p: Producer): nat { if Pending(p) then 1 else 0 }

  function SpareOf(p: Producer): Option<nat> { if p.StoreValue? then Some(p.k) else None }

  /** The tail of the index is the slot of block Pos - 1. */
  function Pos(p: Producer, total: int, committed: int): int
  {
    if p.TakeBlock? || p.StoreValue? || p.Rewind? then total + 1
    else if p.UndoEntry? || p.UndoTail? then total - (p.b - committed)
    else total
  }

  ghost predicate SlotsOk(ix: Index, g: Ghost) { Slotted(ix, g.shift) && KeysWithin(ix.entries, Cur(ix), g.high) }

  ghost function EntryOf(ix: Index, g: Ghost, b: int): Entry
    requires SlotsOk(ix, g)
  {
    ix.entries[EntryNow(ix, g.shift, b)]
  }

  /** A block in use has its entry in the published header, less than a turn behind `bound`. */
  ghost predicate Held(ix: Index, g: Ghost, b: nat, bound: nat)
    requires SlotsOk(ix, g) && b < |g.info|
  {
    Occupies(g.info[b].stage) ==>
      && EntryNow(ix, g.shift, b) == g.info[b].entry && EntryOf(ix, g, b) == Entry(Some(b), Some(g.info[b].blk))
      && bound <= b + |Cur(ix).index|
  }

  ghost predicate AnyInUse(info: seq<Info>, committed: nat)
  {
    exists b :: 0 <= b < committed && b < |info| && Occupies(info[b].stage)
  }

  /** `bound` is the number of blocks whose keys are stored and not undone. */
  ghost predicate IndexInv(ix: Index, g: Ghost, committed: nat, pos: int, bound: nat)
  {
    forall u :: Use(TheIndex, u) ==> IndexParts(ix, g, committed, pos, bound)
  }

  ghost predicate IndexParts(ix: Index, g: Ghost, committed: nat, pos: int, bound: nat)
  {
    && SlotsOk(ix, g) && committed <= |g.info| <= bound <= g.high
    && Cur(ix).tail == SlotNow(ix, g.shift, pos - 1)
    && (forall b :: 0 <= b < |g.info| ==> Held(ix, g, b, bound))
    && (forall b :: committed <= b < bound ==> EntryOf(ix, g, b).key == Some(b))
    && (forall b :: 0 <= b < |g.info| ==> (g.info[b].stage.Undone? ==> EntryOf(ix, g, b).value.None?))
    && (forall b :: bound <= b < g.high ==> EntryOf(ix, g, b) == Entry(Some(b), None))
    && (AnyInUse(g.info, committed) ==> EntryOf(ix, g, committed - 1).key.Some?)
  }

  ghost predicate BlocksInv(blocks: seq<Block>, holder: seq<Holder>, g: Ghost, spare: Option<nat>)
  {
    forall u :: Use(TheBlocks, u) ==> BlocksParts(blocks, holder, g, spare)
  }

  ghost predicate BlocksParts(blocks: seq<Block>, holder: seq<Holder>, g: Ghost, spare: Option<nat>)
  {
    && |blocks| == |holder| == |g.owner| && g.given <= |g.chain|
    && (forall k :: 0 <= k < |blocks| ==> |blocks[k].cells| == BLOCK_SIZE)
    && (forall k :: 0 <= k < |blocks| ==> (holder[k].Ours? <==> !g.owner[k].NotOurs?))
    && (forall b :: 0 <= b < |g.info| && !g.info[b].stage.Dead? ==>
          g.info[b].blk < |blocks| && g.owner[g.info[b].blk] == Of(b))
    && (forall p :: g.given <= p < |g.chain| ==> g.chain[p] < |blocks| && g.owner[g.chain[p]] == Chain(p))
    && (spare.Some? ==> spare.value < |blocks| && g.owner[spare.value].Spare?)
    && (forall k :: 0 <= k < |blocks| ==> OwnerOk(k, g, spare))
  }

  ghost predicate OwnerOk(k: nat, g: Ghost, spare: Option<nat>)
    requires k < |g.owner|
  {
    match g.owner[k]
    case NotOurs => true
    case Of(b) => b < |g.info| && g.info[b].blk == k && !g.info[b].stage.Dead?
    case Spare => spare == Some(k)
    case Chain(p) => g.given <= p < |g.chain| && g.chain[p] == k
  }

  function Clamp(x: int): nat { if x < 0 then 0 else if x > BLOCK_SIZE then BLOCK_SIZE else x }

  /** How many indices of block b the consumer has claimed and not marked. */
  function Pend(x: Consumer, b: nat): nat
  {
    if x.from <= x.end then Clamp(x.end - b * BLOCK_SIZE) - Clamp(x.from - b * BLOCK_SIZE) else 0
  }
  function PendFn(b: nat): Consumer -> nat { (x: Consumer) => Pend(x, b) }

  /** Emptiness counting: every claimed index of a block in use is counted or with a
      consumer; after that the block is claimed whole and nobody has business with it. */
  ghost predicate Counted(blocks: seq<Block>, x: Info, b: nat, consumers: seq<Consumer>, head: nat)
  {
    match x.stage
    case Live =>
      && x.blk < |blocks| && blocks[x.blk].count < BLOCK_SIZE
      && blocks[x.blk].count + Sum(consumers, PendFn(b)) == Clamp(head - b * BLOCK_SIZE)
    case Undone => true
    case _ => Sum(consumers, PendFn(b)) == 0 && head >= (b + 1) * BLOCK_SIZE
  }

  ghost predicate CountInv(blocks: seq<Block>, info: seq<Info>, consumers: seq<Consumer>, head: nat)
  {
    forall u :: Use(TheCounts, u) ==> CountParts(blocks, info, consumers, head)
  }

  ghost predicate CountParts(blocks: seq<Block>, info: seq<Info>, consumers: seq<Consumer>, head: nat)
  {
    forall b :: 0 <= b < |info| ==> Counted(blocks, info[b], b, consumers, head)
  }

  /** The completer of a block is at the point its stage says. */
  ghost predicate StageOk(x: Stage, b: nat, consumers: seq<Consumer>)
  {
    match x
    case Closing(c) => c < |consumers| && consumers[c].pc.Unlink? && LastBlock(consumers[c]) == b
    case Unlinked(c) => c < |consumers| && consumers[c].pc.Release? && LastBlock(consumers[c]) == b
    case _ => true
  }

  ghost predicate StagesInv(info: seq<Info>, committed: nat, consumers: seq<Consumer>)
  {
    forall u :: Use(TheStages, u) ==> StagesParts(info, committed, consumers)
  }

  ghost predicate StagesParts(info: seq<Info>, committed: nat, consumers: seq<Consumer>)
  {
    && (forall b :: 0 <= b < |info| ==> StageOk(info[b].stage, b, consumers))
    && (forall b :: 0 <= b < |info| ==> (b < committed ==> !info[b].stage.Undone?))
    && (forall b :: 0 <= b < |info| ==> (committed <= b ==> info[b].stage.Live? || info[b].stage.Undone?))
  }

  /** The header the consumer holds has the entries of all blocks it still has to visit. */
  ghost predicate Sees(x: Consumer, ix: Index, g: Ghost)
    requires SlotsOk(ix, g) && x.h < |g.shift|
  {
    forall b :: x.from / BLOCK_SIZE <= b < |g.info| && b * BLOCK_SIZE < x.end ==> EntryIn(ix, g.shift, x.h, b) == g.info[b].entry
  }

  /** The consumer is at block b of its range. */
  ghost predicate AtBlock(x: Consumer, b: nat, ix: Index, g: Ghost)
    requires SlotsOk(ix, g) && x.h < |g.shift|
  {
    x.j == SlotOf(ix.headers[x.h], g.shift[x.h], b)
  }

  ghost predicate RangeOk(x: Consumer, input: seq<Value>, head: nat)
  {
    && x.first <= x.from <= x.i <= x.end <= head <= |input|
    && x.out == input[x.first..x.i]
  }

  ghost predicate PcOk(x: Consumer, c: nat, ix: Index, g: Ghost)
    requires SlotsOk(ix, g)
  {
    match x.pc
    case CIdle => x.from == x.i == x.end
    case LoadHeader => x.from == x.i < x.end
    case LoadTail =>
      && x.from == x.i < x.end && x.h < |g.shift| && Sees(x, ix, g)
      && KeyAt(ix, x.h, ix.headers[x.h].tail).Some?
    case LoadKey =>
      && x.from == x.i < x.end && x.h < |g.shift| && Sees(x, ix, g)
      && x.t < |ix.headers[x.h].index| && KeyAt(ix, x.h, x.t).Some?
    case LoadValue => x.from == x.i < x.end && x.h < |g.shift| && Sees(x, ix, g) && AtBlock(x, x.from / BLOCK_SIZE, ix, g)
    case Move =>
      && x.i <= EndIndex(x) && x.from < x.end && x.h < |g.shift| && Sees(x, ix, g)
      && AtBlock(x, x.from / BLOCK_SIZE, ix, g) && x.from / BLOCK_SIZE < |g.info| && x.k == g.info[x.from / BLOCK_SIZE].blk
    case Mark =>
      && x.i == EndIndex(x) && x.from < x.end && x.h < |g.shift| && Sees(x, ix, g)
      && AtBlock(x, x.from / BLOCK_SIZE, ix, g) && x.from / BLOCK_SIZE < |g.info| && x.k == g.info[x.from / BLOCK_SIZE].blk
    case Unlink => x.h < |g.shift| && Sees(x, ix, g) && Completed(x, ix, g, Closing(c))
      && EntryIn(ix, g.shift, x.h, LastBlock(x)) == g.info[LastBlock(x)].entry
    case Release => x.h < |g.shift| && Sees(x, ix, g) && Completed(x, ix, g, Unlinked(c))
  }

  function KeyAt(ix: Index, h: nat, t: nat): Option<nat>
    requires IndexOk(ix) && h < |ix.headers| && t < |ix.headers[h].index|
  {
    assert HeaderOk(ix.headers[h], |ix.entries|);
    ix.entries[ix.headers[h].index[t]].key
  }

  /** The consumer has completed its last block, which is in the given stage. */
  ghost predicate Completed(x: Consumer, ix: Index, g: Ghost, stage: Stage)
    requires SlotsOk(ix, g) && x.h < |g.shift|
  {
    var b := LastBlock(x);
    && x.from == x.i && (x.i < x.end ==> x.i % BLOCK_SIZE == 0) && 0 <= b < |g.info|
    && g.info[b].stage == stage && x.k == g.info[b].blk && AtBlock(x, b, ix, g)
  }

  ghost predicate ConsumersInv(consumers: seq<Consumer>, ix: Index, g: Ghost, input: seq<Value>, head: nat)
  {
    forall u :: Use(TheConsumers, u) ==> ConsumersParts(consumers, ix, g, input, head)
  }

  ghost predicate ConsumersParts(consumers: seq<Consumer>, ix: Index, g: Ghost, input: seq<Value>, head: nat)
  {
    && SlotsOk(ix, g)
    && (forall c :: 0 <= c < |consumers| ==> RangeOk(consumers[c], input, head))
    && (forall c :: 0 <= c < |consumers| ==> PcOk(consumers[c], c, ix, g))
    && (forall c, d :: 0 <= c < |consumers| && 0 <= d < |consumers| && c != d ==> Apart(consumers[c], consumers[d]))
  }

  /** No index is still to be moved out by both. */
  predicate Apart(x: Consumer, y: Consumer) { x.i >= x.end || y.i >= y.end || x.end <= y.i || y.end <= x.i }

  predicate ToMove(x: Consumer, i: nat) { x.i <= i < x.end }

  ghost predicate Unmoved(consumers: seq<Consumer>, head: nat, i: nat)
  {
    i >= head || exists c :: 0 <= c < |consumers| && ToMove(consumers[c], i)
  }

  /** The cell of an enqueued index: the element until it is moved out, then raw. */
  ghost predicate CellOk(blocks: seq<Block>, x: Info, i: nat, input: seq<Value>, consumers: seq<Consumer>, head: nat)
    requires i < |input|
  {
    x.stage.Live? ==>
      && x.blk < |blocks| && |blocks[x.blk].cells| == BLOCK_SIZE
      && blocks[x.blk].cells[i % BLOCK_SIZE] == if Unmoved(consumers, head, i) then Val(input[i]) else Raw
  }

  ghost predicate AllRaw(blocks: seq<Block>, x: Info)
  {
    x.stage.Closing? || x.stage.Unlinked? ==>
      x.blk < |blocks| && forall o :: 0 <= o < |blocks[x.blk].cells| ==> blocks[x.blk].cells[o].Raw?
  }

  ghost predicate DataInv(blocks: seq<Block>, info: seq<Info>, input: seq<Value>, consumers: seq<Consumer>, head: nat)
  {
    forall u :: Use(TheData, u) ==> DataParts(blocks, info, input, consumers, head)
  }

  ghost predicate DataParts(blocks: seq<Block>, info: seq<Info>, input: seq<Value>, consumers: seq<Consumer>, head: nat)
  {
    && (forall i :: 0 <= i < |input| ==> i / BLOCK_SIZE < |info| && CellOk(blocks, info[i / BLOCK_SIZE], i, input, consumers, head))
    && (forall b :: 0 <= b < |info| ==> AllRaw(blocks, info[b]))
  }

  /** The elements delivered are those of the claimed indices that nobody has left to move,
      each once and with the value enqueued there. */
  ghost predicate DeliveriesInv(delivered: seq<Delivery>, input: seq<Value>, consumers: seq<Consumer>, head: nat)
  {
    forall u :: Use(TheDeliveries, u) ==> DeliveriesParts(delivered, input, consumers, head)
  }

  ghost predicate DeliveriesParts(delivered: seq<Delivery>, input: seq<Value>, consumers: seq<Consumer>, head: nat)
  {
    && (forall p :: 0 <= p < |delivered| ==> DeliveryOk(delivered[p], input, consumers, head))
    && (forall p, q :: 0 <= p < q < |delivered| ==> delivered[p].i != delivered[q].i)
    && (forall i :: 0 <= i < head ==> Unmoved(consumers, head, i) || IsDelivered(delivered, i))
  }

  ghost predicate DeliveryOk(x: Delivery, input: seq<Value>, consumers: seq<Consumer>, head: nat)
  {
    x.i < |input| && x.v == input[x.i] && !Unmoved(consumers, head, x.i)
  }

  ghost predicate IsDelivered(delivered: seq<Delivery>, i: nat) { exists p :: 0 <= p < |delivered| && delivered[p].i == i }

  /** Each number whose stage is Dead has been released once, the others never. */
  ghost predicate ReleasesInv(released: multiset<int>, info: seq<Info>)
  {
    forall u :: Use(TheReleases, u) ==> ReleasesParts(released, info)
  }

  ghost predicate ReleasesParts(released: multiset<int>, info: seq<Info>)
  {
    && (forall b :: 0 <= b < |info| ==> released[b] == (if info[b].stage.Dead? then 1 else 0))
    && (forall b :: b < 0 || b >= |info| ==> released[b] == 0)
  }

  // Producer

  ghost predicate NextIs(blocks: seq<Block>, k: nat, next: Option<nat>) { k < |blocks| && blocks[k].next == next }

  ghost predicate LinkAt(blocks: seq<Block>, info: seq<Info>, b: nat)
    requires b + 1 < |info|
  {
    NextIs(blocks, info[b].blk, Some(info[b + 1].blk))
  }

  /** The blocks inserted by this call are chained in order, after the tail block if that
      is partly filled. */
  ghost predicate Linked(blocks: seq<Block>, info: seq<Info>, committed: nat, partial: bool)
  {
    && committed <= |info|
    && (forall b :: committed <= b < |info| - 1 ==> LinkAt(blocks, info, b))
    && (|info| > committed ==> NextIs(blocks, info[|info| - 1].blk, None))
    && (|info| > committed > 0 && partial ==> NextIs(blocks, info[committed - 1].blk, Some(info[committed].blk)))
  }

  /** The call's locals: first and last block inserted so far, and the tail block before. */
  ghost predicate OpOk(op: Op, info: seq<Info>, committed: nat, partial: bool)
  {
    && committed <= |info|
    && (partial && committed > 0 ==> op.startBlock == Some(info[committed - 1].blk))
    && (if |info| > committed then op.first == Some(info[committed].blk) && op.end == Some(info[|info| - 1].blk)
        else op.first == None && op.end == op.startBlock)
  }

  /** Elements of the call already constructed. */
  ghost predicate Filled(blocks: seq<Block>, info: seq<Info>, tail: nat, items: seq<Value>, i: nat)
  {
    forall x :: tail <= x < i ==> FilledAt(blocks, info, tail, items, x)
  }

  ghost predicate FilledAt(blocks: seq<Block>, info: seq<Info>, tail: nat, items: seq<Value>, x: nat)
    requires tail <= x
  {
    x - tail < |items| && x / BLOCK_SIZE < |info| && HasVal(blocks, info[x / BLOCK_SIZE].blk, x, items[x - tail])
  }

  ghost predicate HasVal(blocks: seq<Block>, k: nat, x: nat, v: Value)
  {
    k < |blocks| && |blocks[k].cells| == BLOCK_SIZE && blocks[k].cells[x % BLOCK_SIZE] == Val(v)
  }

  ghost predicate ChainAt(blocks: seq<Block>, chain: seq<nat>, p: nat)
    requires p < |chain|
  {
    NextIs(blocks, chain[p], if p + 1 < |chain| then Some(chain[p + 1]) else None)
  }

  ghost predicate ChainLinked(blocks: seq<Block>, chain: seq<nat>, given: nat, at: Option<nat>)
  {
    && given <= |chain|
    && at == (if given < |chain| then Some(chain[given]) else None)
    && (forall p :: given <= p < |chain| ==> ChainAt(blocks, chain, p))
  }

  ghost predicate AllLive(info: seq<Info>, from: nat)
  {
    forall b :: from <= b < |info| ==> info[b].stage.Live?
  }

  /** Blocks from `committed` below `b` are undone, the later ones are not. */
  ghost predicate UndoneTo(info: seq<Info>, committed: nat, b: int)
  {
    forall x :: committed <= x < |info| ==> (info[x].stage.Undone? <==> x < b)
  }

  ghost predicate Allocating(tail: nat, tailBlock: Option<nat>, blocks: seq<Block>, g: Ghost, op: Op, n: nat)
  {
    var C, partial := Blocks(tail), tail % BLOCK_SIZE != 0;
    && n == |g.info| < Blocks(tail + |op.items|)
    && OpOk(op, g.info, C, partial) && Linked(blocks, g.info, C, partial) && tailBlock == op.end
    && AllLive(g.info, C) && g.given == |g.chain|
  }

  ghost predicate Filling(tail: nat, blocks: seq<Block>, g: Ghost, op: Op, i: nat)
  {
    var C, partial := Blocks(tail), tail % BLOCK_SIZE != 0;
    && |g.info| == Blocks(tail + |op.items|)
    && OpOk(op, g.info, C, partial) && Linked(blocks, g.info, C, partial)
    && AllLive(g.info, C) && g.given == |g.chain|
    && tail <= i <= tail + |op.items| && Filled(blocks, g.info, tail, op.items, i)
  }

  ghost predicate Undoing(tail: nat, blocks: seq<Block>, g: Ghost, op: Op, b: nat, undone: int)
  {
    var C, partial := Blocks(tail), tail % BLOCK_SIZE != 0;
    && C <= b <= |g.info| <= Blocks(tail + |op.items|) && g.given == |g.chain|
    && OpOk(op, g.info, C, partial) && Linked(blocks, g.info, C, partial) && UndoneTo(g.info, C, undone)
  }

  ghost predicate ProducerInv(p: Producer, tail: nat, tailBlock: Option<nat>, blocks: seq<Block>, ix: Index, g: Ghost)
  {
    forall u :: Use(TheProducer, u) ==> SlotsOk(ix, g) && ProducerParts(p, tail, tailBlock, blocks, ix, g)
  }

  ghost predicate ProducerParts(p: Producer, tail: nat, tailBlock: Option<nat>, blocks: seq<Block>, ix: Index, g: Ghost)
    requires SlotsOk(ix, g)
  {
    var C, partial := Blocks(tail), tail % BLOCK_SIZE != 0;
    match p
    case Idle =>
      && |g.info| == C && g.given == |g.chain|
      && (partial && C > 0 ==> tailBlock == Some(g.info[C - 1].blk))
    case Scan(op, n) => Allocating(tail, tailBlock, blocks, g, op, n)
    case Publish(op, n, junk) =>
      Allocating(tail, tailBlock, blocks, g, op, n) && g.high == n && |junk| == |Cur(ix).index|
    case StoreKey(op, n) =>
      Allocating(tail, tailBlock, blocks, g, op, n) && (EntryOf(ix, g, n).key.None? || EntryOf(ix, g, n).value.None?)
    case StoreTail(op, n) => Allocating(tail, tailBlock, blocks, g, op, n)
    case TakeBlock(op, n) => Allocating(tail, tailBlock, blocks, g, op, n)
    case StoreValue(op, n, k) => Allocating(tail, tailBlock, blocks, g, op, n) && NextIs(blocks, k, None) && blocks[k].count == 0
    case Rewind(op, n) => Allocating(tail, tailBlock, blocks, g, op, n)
    case ClearEntry(op, n, e) => Allocating(tail, tailBlock, blocks, g, op, n) && e == EntryNow(ix, g.shift, n)
    case Fill(op, b, i) =>
      && Filling(tail, blocks, g, op, i) && i <= Stop(tail, op, b)
      && (if |op.items| == 0 then tailBlock == op.end && i == Stop(tail, op, b) && b <= |g.info|
          else b < |g.info| && b * BLOCK_SIZE <= i && tail < (b + 1) * BLOCK_SIZE && tailBlock == Some(g.info[b].blk) && b == (if i < Stop(tail, op, b) then i else i - 1) / BLOCK_SIZE)
    case Commit(op) => Filling(tail, blocks, g, op, tail + |op.items|) && tailBlock == op.end
    case UndoEntry(op, b, at) => Undoing(tail, blocks, g, op, b, b) && at == (if b < |g.info| then Some(g.info[b].blk) else None)
    case UndoTail(op, b, k) => Undoing(tail, blocks, g, op, b, b + 1) && b < |g.info| && k == g.info[b].blk
    case GiveBack(op, at) =>
      && |g.info| == C && ChainLinked(blocks, g.chain, g.given, at)
      && (partial && C > 0 ==> op.startBlock == Some(g.info[C - 1].blk))
  }

  /** The elements of the successful calls, in order. */
  function Enqueued(log: seq<Done>): seq<Value>
  {
    if |log| == 0 then [] else Enqueued(log[..|log| - 1]) + (if log[|log| - 1].ok then log[|log| - 1].items else [])
  }

  /** What was enqueued is what the successful calls were given. */
  ghost predicate LogInv(input: seq<Value>, log: seq<Done>)
  {
    forall u :: Use(TheLog, u) ==> input == Enqueued(log)
  }

  ghost predicate InvWith(s: State, g: Ghost)
  {
    && IndexInv(s.ix, g, Blocks(s.tailIndex), Pos(s.producer, |g.info|, Blocks(s.tailIndex)), |g.info| + PendingCount(s.producer))
    && BlocksInv(s.blocks, s.holder, g, SpareOf(s.producer))
    && CountInv(s.blocks, g.info, s.consumers, s.headIndex)
    && StagesInv(g.info, Blocks(s.tailIndex), s.consumers)
    && ConsumersInv(s.consumers, s.ix, g, s.input, s.headIndex)
    && DataInv(s.blocks, g.info, s.input, s.consumers, s.headIndex)
    && ProducerInv(s.producer, s.tailIndex, s.tailBlock, s.blocks, s.ix, g)
    && ReleasesInv(s.released, g.info)
    && DeliveriesInv(s.delivered, s.input, s.consumers, s.headIndex)
    && s.headIndex <= s.tailIndex == |s.input| && LogInv(s.input, s.log)
  }
}
