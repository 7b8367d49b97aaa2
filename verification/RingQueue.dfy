/** ReaderWriterQueue: a single-producer single-consumer queue made of a ring of ring
    buffers. Each side works from a possibly stale copy of the other side's index
    (localFront, localTail). One step is one access to memory the other side also
    touches; a side's accesses to variables only it writes go with the step before. */
module RingQueue {
  import opened Bits
  import opened Circular
  import opened Options

  datatype Cell<T> = Raw | Val(v: T)

  datatype Block<T> = Block(
    size: nat, data: seq<Cell<T>>,
    front: nat, tail: nat,            // indices modulo size
    localFront: nat, localTail: nat,  // the producer's copy of front, the consumer's copy of tail
    next: nat)

  /** Program points of inner_enqueue; `alloc` is the CanAlloc mode. */
  datatype Producer<T> =
    | PIdle
    | PFront(e: T, alloc: bool, b: nat)             // about to load b->front
    | PWrite(e: T, b: nat)                          // about to construct the element in b
    | PTail(e: T, b: nat)                           // about to store b->tail
    | PFull(e: T, alloc: bool, b: nat, queued: nat) // b was full with `queued` elements in the queue; about to load frontBlock
    | PSpare(e: T, b: nat)                          // the next block is free; about to load its front
    | PSpareWrite(e: T, n: nat)
    | PSpareTail(e: T, n: nat)
    | PAlloc(e: T, b: nat)                          // about to allocate a block
    | PLink(e: T, b: nat, n: nat)                   // about to store b->next
    | PSwitch(e: T, n: nat)                         // about to store tailBlock

  datatype Op = Dequeue | Pop | Peek

  /** Program points of try_dequeue, pop and peek. */
  datatype Consumer<T> =
    | CIdle
    | CTail(op: Op, b: nat)                 // about to load b->tail
    | CBlock(op: Op, b: nat, seen: nat)     // b was empty when `seen` elements had been enqueued; about to load tailBlock
    | CAgain(op: Op, b: nat)                // about to load b->tail again
    | CNext(op: Op, b: nat)                 // about to load b->next
    | CNextTail(op: Op, b: nat, n: nat)     // about to load n->tail
    | CSwitch(op: Op, n: nat)               // about to store frontBlock
    | CRead(op: Op, n: nat)                 // about to read the element at n->front
    | CFront(op: Op, n: nat, v: T)          // about to store n->front

  /** `enq` and `deq` record the elements published and removed so far, `maxSize` the
      argument of the constructor. */
  datatype State<T> = State(
    blocks: seq<Block<T>>, frontBlock: nat, tailBlock: nat, largest: nat, maxBlock: nat, maxSize: nat,
    enq: seq<T>, deq: seq<T>, prod: Producer<T>, cons: Consumer<T>)

  /** `(i + 1) & sizeMask` for an index below a power-of-two size. */
  function NextIndex(i: nat, size: nat): nat
  {
    if i + 1 == size then 0 else i + 1
  }

  function NewBlock<T>(size: nat, next: nat): Block<T>
  {
    Block(size, seq(size, i => Raw), 0, 0, 0, 0, next)
  }

  function NewBlockSize(largest: nat, maxBlock: nat): nat
  {
    if largest >= maxBlock then largest else largest * 2
  }

  /** What keeps all accesses in range. */
  ghost predicate Sane<T>(s: State<T>)
  {
    && s.frontBlock < |s.blocks| && s.tailBlock < |s.blocks|
    && (forall i :: 0 <= i < |s.blocks| ==> SaneBlock(s.blocks[i], |s.blocks|))
    && (match s.prod
        case PIdle => true
        case PFront(_, _, b) => b < |s.blocks|
        case PWrite(_, b) => b < |s.blocks|
        case PTail(_, b) => b < |s.blocks|
        case PFull(_, _, b, _) => b < |s.blocks|
        case PSpare(_, b) => b < |s.blocks|
        case PSpareWrite(_, n) => n < |s.blocks|
        case PSpareTail(_, n) => n < |s.blocks|
        case PAlloc(_, b) => b < |s.blocks|
        case PLink(_, b, n) => b < |s.blocks| && n < |s.blocks|
        case PSwitch(_, n) => n < |s.blocks|)
    && (match s.cons
        case CIdle => true
        case CTail(_, b) => b < |s.blocks|
        case CBlock(_, b, _) => b < |s.blocks|
        case CAgain(_, b) => b < |s.blocks|
        case CNext(_, b) => b < |s.blocks|
        case CNextTail(_, b, n) => b < |s.blocks| && n < |s.blocks|
        case CSwitch(_, n) => n < |s.blocks|
        case CRead(_, n) => n < |s.blocks|
        case CFront(_, n, _) => n < |s.blocks|)
  }

  ghost predicate SaneBlock<T>(b: Block<T>, n: nat)
  {
    b.size >= 2 && |b.data| == b.size && b.front < b.size && b.tail < b.size && b.next < n
  }

  // ---------------------------------------------------------------------------
  // Steps of the producer

  ghost function WithBlock<T>(s: State<T>, i: nat, b: Block<T>): State<T>
    requires i < |s.blocks|
  {
    s.(blocks := s.blocks[i := b])
  }

  function NextTail<T>(b: Block<T>): nat { NextIndex(b.tail, b.size) }

  ghost function EnqueueStart<T>(s: State<T>, e: T, alloc: bool): State<T>
    requires Sane(s)
  {
    var b := s.blocks[s.tailBlock];
    s.(prod := if NextTail(b) != b.localFront then PWrite(e, s.tailBlock) else PFront(e, alloc, s.tailBlock))
  }

  ghost function EnqueueFront<T>(s: State<T>): State<T>
    requires Sane(s) && s.prod.PFront?
  {
    var PFront(e, alloc, i) := s.prod;
    var b := s.blocks[i];
    WithBlock(s, i, b.(localFront := b.front)).(
      prod := if NextTail(b) != b.front then PWrite(e, i) else PFull(e, alloc, i, Queued(s)))
  }

  ghost function EnqueueWrite<T>(s: State<T>): State<T>
    requires Sane(s) && s.prod.PWrite?
  {
    var PWrite(e, i) := s.prod;
    var b := s.blocks[i];
    WithBlock(s, i, b.(data := b.data[b.tail := Val(e)])).(prod := PTail(e, i))
  }

  ghost function EnqueueTail<T>(s: State<T>): State<T>
    requires Sane(s) && s.prod.PTail?
  {
    var PTail(e, i) := s.prod;
    var b := s.blocks[i];
    WithBlock(s, i, b.(tail := NextTail(b))).(prod := PIdle, enq := s.enq + [e])
  }

  ghost function EnqueueFull<T>(s: State<T>): State<T>
    requires Sane(s) && s.prod.PFull?
  {
    var PFull(e, alloc, i, _) := s.prod;
    s.(prod := if s.blocks[i].next != s.frontBlock then PSpare(e, i) else if alloc then PAlloc(e, i) else PIdle)
  }

  ghost function EnqueueSpare<T>(s: State<T>): State<T>
    requires Sane(s) && s.prod.PSpare?
  {
    var PSpare(e, i) := s.prod;
    var n := s.blocks[i].next;
    WithBlock(s, n, s.blocks[n].(localFront := s.blocks[n].front)).(prod := PSpareWrite(e, n))
  }

  ghost function EnqueueSpareWrite<T>(s: State<T>): State<T>
    requires Sane(s) && s.prod.PSpareWrite?
  {
    var PSpareWrite(e, n) := s.prod;
    var b := s.blocks[n];
    WithBlock(s, n, b.(data := b.data[b.tail := Val(e)])).(prod := PSpareTail(e, n))
  }

  ghost function EnqueueSpareTail<T>(s: State<T>): State<T>
    requires Sane(s) && s.prod.PSpareTail?
  {
    var PSpareTail(e, n) := s.prod;
    var b := s.blocks[n];
    WithBlock(s, n, b.(tail := NextTail(b))).(prod := PSwitch(e, n))
  }

  /** Allocation may fail. A new block already holds the element. */
  ghost function EnqueueAlloc<T>(s: State<T>, available: bool): State<T>
    requires Sane(s) && s.prod.PAlloc? && NewBlockSize(s.largest, s.maxBlock) > 0
  {
    var PAlloc(e, i) := s.prod;
    if !available then s.(prod := PIdle) else
    var size := NewBlockSize(s.largest, s.maxBlock);
    var raw := NewBlock(size, s.blocks[i].next);
    var b := raw.(data := raw.data[0 := Val(e)], tail := 1, localTail := 1);
    s.(blocks := s.blocks + [b], largest := size, prod := PLink(e, i, |s.blocks|))
  }

  ghost function EnqueueLink<T>(s: State<T>): State<T>
    requires Sane(s) && s.prod.PLink?
  {
    var PLink(e, i, n) := s.prod;
    WithBlock(s, i, s.blocks[i].(next := n)).(prod := PSwitch(e, n))
  }

  ghost function EnqueueSwitch<T>(s: State<T>): State<T>
    requires Sane(s) && s.prod.PSwitch?
  {
    var PSwitch(e, n) := s.prod;
    s.(tailBlock := n, prod := PIdle, enq := s.enq + [e])
  }

  ghost function ProducerStep<T>(s: State<T>, e: T, alloc: bool, available: bool): State<T>
    requires Sane(s) && s.largest > 0
  {
    match s.prod
    case PIdle => EnqueueStart(s, e, alloc)
    case PFront(_, _, _) => EnqueueFront(s)
    case PWrite(_, _) => EnqueueWrite(s)
    case PTail(_, _) => EnqueueTail(s)
    case PFull(_, _, _, _) => EnqueueFull(s)
    case PSpare(_, _) => EnqueueSpare(s)
    case PSpareWrite(_, _) => EnqueueSpareWrite(s)
    case PSpareTail(_, _) => EnqueueSpareTail(s)
    case PAlloc(_, _) => EnqueueAlloc(s, available)
    case PLink(_, _, _) => EnqueueLink(s)
    case PSwitch(_, _) => EnqueueSwitch(s)
  }

  // ---------------------------------------------------------------------------
  // Steps of the consumer

  ghost function DequeueStart<T>(s: State<T>, op: Op): State<T>
    requires Sane(s)
  {
    var b := s.blocks[s.frontBlock];
    s.(cons := if b.front != b.localTail then CRead(op, s.frontBlock) else CTail(op, s.frontBlock))
  }

  ghost function DequeueTail<T>(s: State<T>): State<T>
    requires Sane(s) && s.cons.CTail?
  {
    var CTail(op, i) := s.cons;
    var b := s.blocks[i];
    WithBlock(s, i, b.(localTail := b.tail)).(cons := if b.front != b.tail then CRead(op, i) else CBlock(op, i, |s.enq|))
  }

  ghost function DequeueBlock<T>(s: State<T>): State<T>
    requires Sane(s) && s.cons.CBlock?
  {
    var CBlock(op, i, _) := s.cons;
    s.(cons := if i != s.tailBlock then CAgain(op, i) else CIdle)
  }

  ghost function DequeueAgain<T>(s: State<T>): State<T>
    requires Sane(s) && s.cons.CAgain?
  {
    var CAgain(op, i) := s.cons;
    var b := s.blocks[i];
    WithBlock(s, i, b.(localTail := b.tail)).(cons := if b.front != b.tail then CRead(op, i) else CNext(op, i))
  }

  ghost function DequeueNext<T>(s: State<T>): State<T>
    requires Sane(s) && s.cons.CNext?
  {
    var CNext(op, i) := s.cons;
    s.(cons := CNextTail(op, i, s.blocks[i].next))
  }

  /** peek looks into the next block without moving to it. */
  ghost function DequeueNextTail<T>(s: State<T>): State<T>
    requires Sane(s) && s.cons.CNextTail?
  {
    var CNextTail(op, _, n) := s.cons;
    if op.Peek? then s.(cons := CRead(op, n))
    else WithBlock(s, n, s.blocks[n].(localTail := s.blocks[n].tail)).(cons := CSwitch(op, n))
  }

  ghost function DequeueSwitch<T>(s: State<T>): State<T>
    requires Sane(s) && s.cons.CSwitch?
  {
    var CSwitch(op, n) := s.cons;
    s.(frontBlock := n, cons := CRead(op, n))
  }

  ghost function DequeueRead<T>(s: State<T>): State<T>
    requires Sane(s) && s.cons.CRead?
  {
    var CRead(op, n) := s.cons;
    var b := s.blocks[n];
    s.(cons := if op.Peek? || b.data[b.front].Raw? then CIdle else CFront(op, n, b.data[b.front].v))
  }

  ghost function DequeueFront<T>(s: State<T>): State<T>
    requires Sane(s) && s.cons.CFront?
  {
    var CFront(op, n, v) := s.cons;
    var b := s.blocks[n];
    WithBlock(s, n, b.(front := NextIndex(b.front, b.size))).(cons := CIdle, deq := s.deq + [v])
  }

  ghost function ConsumerStep<T>(s: State<T>, op: Op): State<T>
    requires Sane(s)
  {
    match s.cons
    case CIdle => DequeueStart(s, op)
    case CTail(_, _) => DequeueTail(s)
    case CBlock(_, _, _) => DequeueBlock(s)
    case CAgain(_, _) => DequeueAgain(s)
    case CNext(_, _) => DequeueNext(s)
    case CNextTail(_, _, _) => DequeueNextTail(s)
    case CSwitch(_, _) => DequeueSwitch(s)
    case CRead(_, _) => DequeueRead(s)
    case CFront(_, _, _) => DequeueFront(s)
  }

  ghost function Queued<T>(s: State<T>): nat
  {
    if |s.enq| >= |s.deq| then |s.enq| - |s.deq| else 0
  }

  // ---------------------------------------------------------------------------
  // The inductive invariant

  /** Unbounded counterparts of a block's indices, and the position in `enq` of the
      element with count zero in this block. */
  datatype Marks = Marks(r: nat, w: nat, lf: nat, lt: nat, off: int)

  /** The blocks in ring order from frontBlock, the position of tailBlock, all marks, and
      a lower bound on block sizes. */
  datatype Ghost = Ghost(ring: seq<nat>, k: nat, marks: seq<Marks>, least: nat)

  /** Where the element with count `c` lives in a block of `n` cells: `c` modulo `n`. */
  ghost function Slot(c: nat, n: nat): (i: nat)
    requires n > 0
    ensures i < n
  {
    if c < n then c else Slot(c - n, n)
  }

  ghost predicate BlockOk<T>(b: Block<T>, m: Marks)
  {
    && b.size >= 2 && |b.data| == b.size
    && b.front == Slot(m.r, b.size) && b.tail == Slot(m.w, b.size)
    && b.localFront == Slot(m.lf, b.size) && b.localTail == Slot(m.lt, b.size)
    && m.lf <= m.r <= m.lt <= m.w < m.lf + b.size
  }

  function After(ring: seq<nat>, i: nat): nat
    requires i < |ring|
  {
    if i + 1 < |ring| then ring[i + 1] else ring[0]
  }

  ghost predicate Linked<T>(blocks: seq<Block<T>>, ring: seq<nat>, i: nat)
    requires i < |ring| && ring[i] < |blocks|
  {
    blocks[ring[i]].next == After(ring, i)
  }

  ghost predicate RingOk<T>(s: State<T>, g: Ghost)
  {
    && g.k < |g.ring|
    && (forall i :: 0 <= i < |g.ring| ==> g.ring[i] < |s.blocks|)
    && (forall i, j :: 0 <= i < j < |g.ring| ==> g.ring[i] != g.ring[j])
    && (forall i :: 0 <= i < |g.ring| ==> Linked(s.blocks, g.ring, i))
    && s.frontBlock == g.ring[0] && s.tailBlock == g.ring[g.k]
  }

  /** The occupied blocks hold consecutive stretches of `enq`, from |deq| to its end. */
  ghost predicate StretchesOk<T>(s: State<T>, g: Ghost)
    requires RingOk(s, g) && |g.marks| == |s.blocks|
  {
    && g.marks[g.ring[0]].off + g.marks[g.ring[0]].r == |s.deq|
    && g.marks[g.ring[g.k]].off + g.marks[g.ring[g.k]].w == |s.enq|
    && (forall i :: 0 <= i < g.k ==> Adjacent(g, i))
    && (forall i :: 0 <= i <= g.k ==> Within(g.marks[g.ring[i]], |s.deq|, |s.enq|))
  }

  ghost predicate Adjacent(g: Ghost, i: nat)
    requires i + 1 < |g.ring| && g.ring[i] < |g.marks| && g.ring[i + 1] < |g.marks|
  {
    g.marks[g.ring[i]].off + g.marks[g.ring[i]].w == g.marks[g.ring[i + 1]].off + g.marks[g.ring[i + 1]].r
  }

  ghost predicate Within(m: Marks, lo: nat, hi: nat)
  {
    lo <= m.off + m.r && m.off + m.w <= hi
  }

  ghost predicate Holds<T>(b: Block<T>, m: Marks, enq: seq<T>)
    requires BlockOk(b, m)
  {
    forall c :: m.r <= c < m.w ==> HoldsAt(b, m, enq, c)
  }

  ghost predicate HoldsAt<T>(b: Block<T>, m: Marks, enq: seq<T>, c: nat)
    requires BlockOk(b, m)
  {
    0 <= m.off + c < |enq| && b.data[Slot(c, b.size)] == Val(enq[m.off + c])
  }

  ghost predicate Full<T>(b: Block<T>, m: Marks) { m.w - m.r == b.size - 1 }

  /** Blocks between the two ends are full, blocks past the tail are empty (but for one
      element on its way in). */
  ghost predicate FillOk<T>(s: State<T>, g: Ghost)
    requires RingOk(s, g) && |g.marks| == |s.blocks|
  {
    && (forall i :: 1 <= i < g.k ==> Full(s.blocks[g.ring[i]], g.marks[g.ring[i]]))
    && (forall i :: 1 <= i <= g.k ==> g.marks[g.ring[i]].r < g.marks[g.ring[i]].w)
    && (forall i :: g.k < i < |g.ring| ==>
          (s.prod.PSwitch? && i == g.k + 1) || g.marks[g.ring[i]].r == g.marks[g.ring[i]].w)
  }

  /** The tail block, if the consumer is not in it, is full. */
  ghost predicate TailFull<T>(s: State<T>, g: Ghost)
    requires RingOk(s, g) && |g.marks| == |s.blocks|
  {
    g.k >= 1 ==> Full(s.blocks[s.tailBlock], g.marks[s.tailBlock])
  }

  ghost predicate ProducerOk<T>(s: State<T>, g: Ghost)
    requires RingOk(s, g) && |g.marks| == |s.blocks|
  {
    match s.prod
    case PIdle => true
    case PFront(_, _, b) => b == s.tailBlock && g.marks[b].w - g.marks[b].lf == s.blocks[b].size - 1
    case PWrite(_, b) => b == s.tailBlock && g.marks[b].w - g.marks[b].lf < s.blocks[b].size - 1
    case PTail(e, b) =>
      && b == s.tailBlock && g.marks[b].w - g.marks[b].lf < s.blocks[b].size - 1
      && s.blocks[b].tail < |s.blocks[b].data| && s.blocks[b].data[s.blocks[b].tail] == Val(e)
    case PFull(_, _, b, queued) => b == s.tailBlock && queued >= s.blocks[b].size - 1 && TailFull(s, g)
    case PSpare(_, b) => b == s.tailBlock && g.k + 1 < |g.ring| && TailFull(s, g)
    case PSpareWrite(_, n) =>
      g.k + 1 < |g.ring| && n == g.ring[g.k + 1] && TailFull(s, g) && g.marks[n].lf == g.marks[n].r
    case PSpareTail(e, n) =>
      && g.k + 1 < |g.ring| && n == g.ring[g.k + 1] && TailFull(s, g) && g.marks[n].lf == g.marks[n].r
      && s.blocks[n].tail < |s.blocks[n].data| && s.blocks[n].data[s.blocks[n].tail] == Val(e)
    case PAlloc(_, b) => b == s.tailBlock && TailFull(s, g)
    case PLink(e, b, n) =>
      && b == s.tailBlock && TailFull(s, g)
      && n < |s.blocks| && n !in g.ring && s.blocks[n].next == s.blocks[b].next
      && Incoming(s, g, n, e)
    case PSwitch(e, n) =>
      g.k + 1 < |g.ring| && n == g.ring[g.k + 1] && TailFull(s, g) && Incoming(s, g, n, e)
  }

  /** Block `n` holds exactly the element `e`. */
  ghost predicate Incoming<T>(s: State<T>, g: Ghost, n: nat, e: T)
    requires n < |s.blocks| == |g.marks|
  {
    && g.marks[n].w == g.marks[n].r + 1
    && s.blocks[n].front < |s.blocks[n].data| && s.blocks[n].data[s.blocks[n].front] == Val(e)
  }

  ghost predicate Drained(g: Ghost)
    requires |g.ring| > 0 && g.ring[0] < |g.marks|
  {
    g.marks[g.ring[0]].r == g.marks[g.ring[0]].w
  }

  ghost predicate ConsumerOk<T>(s: State<T>, g: Ghost)
    requires RingOk(s, g) && |g.marks| == |s.blocks|
  {
    match s.cons
    case CIdle => true
    case CTail(_, b) => b == s.frontBlock
    case CBlock(_, b, seen) => b == s.frontBlock && (g.k == 0 ==> seen == |s.deq|)
    case CAgain(_, b) => b == s.frontBlock && g.k >= 1
    case CNext(_, b) => b == s.frontBlock && g.k >= 1 && Drained(g)
    case CNextTail(_, b, n) => b == s.frontBlock && g.k >= 1 && Drained(g) && n == g.ring[1]
    case CSwitch(op, n) => !op.Peek? && g.k >= 1 && Drained(g) && n == g.ring[1] && g.marks[n].r < g.marks[n].lt
    case CRead(op, n) =>
      || (n == g.ring[0] && g.marks[n].r < g.marks[n].lt)
      || (op.Peek? && g.k >= 1 && Drained(g) && n == g.ring[1])
    case CFront(op, n, v) =>
      && n == g.ring[0] && g.marks[n].r < g.marks[n].lt
      && |s.deq| < |s.enq| && v == s.enq[|s.deq|]
  }

  ghost function Times(n: nat, x: nat): nat
  {
    if n == 0 then 0 else Times(n - 1, x) + x
  }

  /** What `n` blocks of at least `least` cells can always take: one block keeps a cell
      free; with several, the block being drained may not be written. */
  ghost function Capacity(n: nat, least: nat): nat
    requires least > 0
  {
    if n <= 1 then least - 1 else Times(n - 1, least - 1)
  }

  ghost predicate SizesOk<T>(s: State<T>, g: Ghost)
  {
    && 2 <= g.least <= s.largest
    && (forall i :: 0 <= i < |s.blocks| ==> s.blocks[i].size >= g.least)
    && s.maxSize <= Capacity(|g.ring|, g.least)
  }

  /** The part of the invariant that does not speak of program points. */
  ghost predicate Core<T>(s: State<T>, g: Ghost)
  {
    && |g.marks| == |s.blocks|
    && (forall i :: 0 <= i < |s.blocks| ==> BlockOk(s.blocks[i], g.marks[i]) && s.blocks[i].next < |s.blocks|)
    && RingOk(s, g) && StretchesOk(s, g) && FillOk(s, g)
    && (forall i :: 0 <= i <= g.k ==> Holds(s.blocks[g.ring[i]], g.marks[g.ring[i]], s.enq))
    && SizesOk(s, g)
    && |s.deq| <= |s.enq| && s.deq == s.enq[..|s.deq|]
  }

  ghost predicate InvWith<T>(s: State<T>, g: Ghost)
  {
    Core(s, g) && ProducerOk(s, g) && ConsumerOk(s, g)
  }

  ghost predicate Inv<T>(s: State<T>) { exists g :: InvWith(s, g) }

  // ---------------------------------------------------------------------------
  // Helpers

  lemma {:induction false} SlotInjective(x: nat, y: nat, n: nat)
    requires x <= y < x + n && Slot(x, n) == Slot(y, n)
    ensures x == y
  {
    if x >= n { SlotInjective(x - n, y - n, n); }
    else if y >= n { assert false; }
  }

  lemma {:induction false} SlotNext(c: nat, n: nat)
    requires n > 0
    ensures Slot(c + 1, n) == NextIndex(Slot(c, n), n)
  {
    if c >= n { SlotNext(c - n, n); }
    else if c + 1 == n { assert Slot(n, n) == Slot(0, n) == 0; }
  }

  lemma SlotTurn(c: nat, n: nat)
    requires n > 0
    ensures Slot(c + n, n) == Slot(c, n)
  {
  }

  lemma InvIsSane<T>(s: State<T>, g: Ghost)
    requires InvWith(s, g)
    ensures Sane(s) && s.largest > 0
  {
  }

  /** A change of program point alone. */
  lemma CoreMoves<T>(s: State<T>, g: Ghost, prod: Producer<T>, cons: Consumer<T>)
    requires Core(s, g) && (s.prod.PSwitch? ==> prod.PSwitch?)
    ensures Core(s.(prod := prod, cons := cons), g)
  {
  }

  ghost function WithMarks(g: Ghost, i: nat, m: Marks): Ghost
    requires i < |g.marks|
  {
    g.(marks := g.marks[i := m])
  }

  lemma RingSame<T>(s: State<T>, g: Ghost, s': State<T>, g': Ghost)
    requires RingOk(s, g) && g'.ring == g.ring && g'.k == g.k
    requires s'.frontBlock == s.frontBlock && s'.tailBlock == s.tailBlock && |s.blocks| <= |s'.blocks|
    requires forall i :: 0 <= i < |s.blocks| ==> s'.blocks[i].next == s.blocks[i].next
    ensures RingOk(s', g')
  {
    forall i | 0 <= i < |g.ring| ensures Linked(s'.blocks, g'.ring, i) { assert Linked(s.blocks, g.ring, i); }
  }

  lemma UpdatesShape<T>(s: State<T>, g: Ghost, i: nat, b: Block<T>, m: Marks)
    requires Core(s, g) && i < |s.blocks| && b.next == s.blocks[i].next && b.size == s.blocks[i].size
    requires m.r == g.marks[i].r && m.w == g.marks[i].w && m.off == g.marks[i].off
    ensures var s', g' := WithBlock(s, i, b), WithMarks(g, i, m);
            RingOk(s', g') && StretchesOk(s', g') && FillOk(s', g')
  {
    var s', g' := WithBlock(s, i, b), WithMarks(g, i, m);
    RingSame(s, g, s', g');
    forall j | 0 <= j < g.k ensures Adjacent(g', j) { assert Adjacent(g, j); }
    forall j | 0 <= j <= g.k ensures Within(g'.marks[g.ring[j]], |s.deq|, |s.enq|) {
      assert Within(g.marks[g.ring[j]], |s.deq|, |s.enq|);
    }
  }

  /** A change of one block that keeps its elements where they are. */
  lemma CoreUpdates<T>(s: State<T>, g: Ghost, i: nat, b: Block<T>, m: Marks)
    requires Core(s, g) && i < |s.blocks| && BlockOk(b, m)
    requires b.next == s.blocks[i].next && b.size == s.blocks[i].size
    requires m.r == g.marks[i].r && m.w == g.marks[i].w && m.off == g.marks[i].off
    requires forall c :: m.r <= c < m.w ==> b.data[Slot(c, b.size)] == s.blocks[i].data[Slot(c, b.size)]
    ensures Core(WithBlock(s, i, b), WithMarks(g, i, m))
  {
    var s', g' := WithBlock(s, i, b), WithMarks(g, i, m);
    UpdatesShape(s, g, i, b, m);
    forall j | 0 <= j <= g.k ensures Holds(s'.blocks[g.ring[j]], g'.marks[g.ring[j]], s.enq) {
      var l := g.ring[j];
      assert Holds(s.blocks[l], g.marks[l], s.enq);
      if l == i { HoldsSame(s.blocks[i], g.marks[i], b, m, s.enq); }
    }
  }

  lemma HoldsSame<T>(b: Block<T>, m: Marks, b': Block<T>, m': Marks, enq: seq<T>)
    requires BlockOk(b, m) && BlockOk(b', m') && b.size == b'.size && Holds(b, m, enq)
    requires m'.r == m.r && m'.w == m.w && m'.off == m.off
    requires forall c :: m.r <= c < m.w ==> b'.data[Slot(c, b.size)] == b.data[Slot(c, b.size)]
    ensures Holds(b', m', enq)
  {
    forall c | m'.r <= c < m'.w ensures HoldsAt(b', m', enq, c) { assert HoldsAt(b, m, enq, c); }
  }

  // ---------------------------------------------------------------------------
  // The producer's steps keep the invariant

  /** The producer's test for room, against any earlier value `f` of the front count. */
  lemma RoomTest<T>(b: Block<T>, m: Marks, front: nat, f: nat)
    requires BlockOk(b, m) && m.lf <= f <= m.r && front == Slot(f, b.size)
    ensures NextTail(b) == front <==> m.w - f == b.size - 1
  {
    SlotNext(m.w, b.size);
    if NextTail(b) == front {
      if m.w - f < b.size - 1 { SlotInjective(f, m.w + 1, b.size); }
    } else if m.w - f == b.size - 1 {
      SlotTurn(f, b.size);
    }
  }

  lemma KeepEnqueueStart<T>(s: State<T>, g: Ghost, e: T, alloc: bool)
    requires InvWith(s, g) && s.prod.PIdle? && Sane(s)
    ensures InvWith(EnqueueStart(s, e, alloc), g)
  {
    var b, m := s.blocks[s.tailBlock], g.marks[s.tailBlock];
    RoomTest(b, m, b.localFront, m.lf);
    CoreMoves(s, g, EnqueueStart(s, e, alloc).prod, s.cons);
  }

  lemma KeepEnqueueFront<T>(s: State<T>, g: Ghost) returns (g': Ghost)
    requires InvWith(s, g) && s.prod.PFront? && Sane(s)
    ensures InvWith(EnqueueFront(s), g')
  {
    var i := s.prod.b;
    var b, m := s.blocks[i], g.marks[i];
    RoomTest(b, m, b.front, m.r);
    g' := WithMarks(g, i, m.(lf := m.r));
    var s1 := WithBlock(s, i, b.(localFront := b.front));
    CoreUpdates(s, g, i, s1.blocks[i], g'.marks[i]);
    var s' := EnqueueFront(s);
    CoreMoves(s1, g', s'.prod, s.cons);
    if s'.prod.PFull? {
      assert Within(m, |s.deq|, |s.enq|);
    }
  }

  /** Writing at the tail of a block with room disturbs none of its elements. */
  lemma WriteAtTail<T>(b: Block<T>, m: Marks, e: T)
    requires BlockOk(b, m)
    ensures var b' := b.(data := b.data[b.tail := Val(e)]);
            && BlockOk(b', m)
            && forall c :: m.r <= c < m.w ==> b'.data[Slot(c, b.size)] == b.data[Slot(c, b.size)]
  {
    forall c | m.r <= c < m.w ensures Slot(c, b.size) != b.tail {
      if Slot(c, b.size) == b.tail { SlotInjective(c, m.w, b.size); }
    }
  }

  lemma KeepEnqueueWrite<T>(s: State<T>, g: Ghost) returns (g': Ghost)
    requires InvWith(s, g) && s.prod.PWrite? && Sane(s)
    ensures InvWith(EnqueueWrite(s), g')
  {
    var PWrite(e, i) := s.prod;
    var b, m := s.blocks[i], g.marks[i];
    WriteAtTail(b, m, e);
    var b' := b.(data := b.data[b.tail := Val(e)]);
    CoreUpdates(s, g, i, b', m);
    g' := WithMarks(g, i, m);
    assert g' == g;
    CoreMoves(WithBlock(s, i, b'), g, PTail(e, i), s.cons);
  }

  lemma KeepEnqueueFull<T>(s: State<T>, g: Ghost)
    requires InvWith(s, g) && s.prod.PFull? && Sane(s)
    ensures InvWith(EnqueueFull(s), g)
  {
    assert Linked(s.blocks, g.ring, g.k);
    CoreMoves(s, g, EnqueueFull(s).prod, s.cons);
  }

  lemma KeepEnqueueSpare<T>(s: State<T>, g: Ghost) returns (g': Ghost)
    requires InvWith(s, g) && s.prod.PSpare? && Sane(s)
    ensures InvWith(EnqueueSpare(s), g')
  {
    var PSpare(e, i) := s.prod;
    assert Linked(s.blocks, g.ring, g.k);
    var n := s.blocks[i].next;
    g' := WithMarks(g, n, g.marks[n].(lf := g.marks[n].r));
    SpareShape(s);
    SpareCore(s, g, n);
    CoreMoves(WithBlock(s, n, s.blocks[n].(localFront := s.blocks[n].front)), g', PSpareWrite(e, n), s.cons);
  }

  lemma SpareShape<T>(s: State<T>)
    requires s.prod.PSpare? && Sane(s)
    ensures var n := s.blocks[s.prod.b].next;
            && n < |s.blocks|
            && EnqueueSpare(s) == WithBlock(s, n, s.blocks[n].(localFront := s.blocks[n].front)).(prod := PSpareWrite(s.prod.e, n))
  {
  }

  /** The producer refreshes its copy of the spare block's front. */
  lemma SpareCore<T>(s: State<T>, g: Ghost, n: nat)
    requires InvWith(s, g) && s.prod.PSpare? && g.k + 1 < |g.ring| && n == g.ring[g.k + 1]
    ensures n < |s.blocks| == |g.marks|
    ensures var s', g' := WithBlock(s, n, s.blocks[n].(localFront := s.blocks[n].front)), WithMarks(g, n, g.marks[n].(lf := g.marks[n].r));
            Core(s', g') && ConsumerOk(s', g') && TailFull(s', g')
  {
    var b, m := s.blocks[n], g.marks[n];
    CoreUpdates(s, g, n, b.(localFront := b.front), m.(lf := m.r));
  }

  lemma KeepEnqueueSpareWrite<T>(s: State<T>, g: Ghost)
    requires InvWith(s, g) && s.prod.PSpareWrite? && Sane(s)
    ensures InvWith(EnqueueSpareWrite(s), g)
  {
    var PSpareWrite(e, n) := s.prod;
    var b, m := s.blocks[n], g.marks[n];
    WriteAtTail(b, m, e);
    var b' := b.(data := b.data[b.tail := Val(e)]);
    CoreUpdates(s, g, n, b', m);
    assert WithMarks(g, n, m) == g;
    CoreMoves(WithBlock(s, n, b'), g, PSpareTail(e, n), s.cons);
  }

  /** One more element is in a block once its tail moves past it. */
  lemma PublishInBlock<T>(b: Block<T>, m: Marks, enq: seq<T>, e: T)
    requires BlockOk(b, m) && m.w - m.lf < b.size - 1 && Holds(b, m, enq)
    requires m.off + m.w == |enq| && b.data[b.tail] == Val(e)
    ensures BlockOk(b.(tail := NextTail(b)), m.(w := m.w + 1))
    ensures Holds(b.(tail := NextTail(b)), m.(w := m.w + 1), enq + [e])
  {
    SlotNext(m.w, b.size);
    var b', m' := b.(tail := NextTail(b)), m.(w := m.w + 1);
    forall c | m'.r <= c < m'.w ensures HoldsAt(b', m', enq + [e], c) {
      if c < m.w { assert HoldsAt(b, m, enq, c); }
    }
  }

  lemma HoldsMore<T>(b: Block<T>, m: Marks, enq: seq<T>, e: T)
    requires BlockOk(b, m) && Holds(b, m, enq)
    ensures Holds(b, m, enq + [e])
  {
    forall c | m.r <= c < m.w ensures HoldsAt(b, m, enq + [e], c) { assert HoldsAt(b, m, enq, c); }
  }

  ghost function TailGhost<T>(s: State<T>, g: Ghost, n: nat): Ghost
    requires n < |g.marks|
  {
    WithMarks(g, n, g.marks[n].(w := g.marks[n].w + 1))
  }

  lemma EnqueueTailShape<T>(s: State<T>, g: Ghost)
    requires InvWith(s, g) && s.prod.PTail? && Sane(s)
    ensures var s', g' := EnqueueTail(s), TailGhost(s, g, s.prod.b);
            RingOk(s', g') && StretchesOk(s', g') && FillOk(s', g')
  {
    var i := s.prod.b;
    var s', g' := EnqueueTail(s), TailGhost(s, g, i);
    RingSame(s, g, s', g');
    forall j | 0 <= j < g.k ensures Adjacent(g', j) { assert Adjacent(g, j); }
    forall j | 0 <= j <= g.k ensures Within(g'.marks[g.ring[j]], |s'.deq|, |s'.enq|) {
      assert Within(g.marks[g.ring[j]], |s.deq|, |s.enq|);
    }
  }

  lemma KeepEnqueueTail<T>(s: State<T>, g: Ghost) returns (g': Ghost)
    requires InvWith(s, g) && s.prod.PTail? && Sane(s)
    ensures InvWith(EnqueueTail(s), g')
  {
    var PTail(e, i) := s.prod;
    g' := TailGhost(s, g, i);
    var s' := EnqueueTail(s);
    EnqueueTailShape(s, g);
    EnqueueTailBlocks(s, g);
    EnqueueTailHolds(s, g);
  }

  /** The blocks after the tail store. */
  lemma EnqueueTailBlocks<T>(s: State<T>, g: Ghost)
    requires InvWith(s, g) && s.prod.PTail? && Sane(s)
    ensures var s', g' := EnqueueTail(s), TailGhost(s, g, s.prod.b);
            && |s'.blocks| == |s.blocks| == |g'.marks|
            && (forall j :: 0 <= j < |s.blocks| ==> BlockOk(s'.blocks[j], g'.marks[j]))
  {
    var PTail(e, i) := s.prod;
    assert Holds(s.blocks[g.ring[g.k]], g.marks[g.ring[g.k]], s.enq);
    PublishInBlock(s.blocks[i], g.marks[i], s.enq, e);
  }

  /** Their contents. */
  lemma EnqueueTailHolds<T>(s: State<T>, g: Ghost)
    requires InvWith(s, g) && s.prod.PTail? && Sane(s)
    requires var s', g' := EnqueueTail(s), TailGhost(s, g, s.prod.b);
             && |s'.blocks| == |s.blocks| == |g'.marks| && RingOk(s', g')
             && (forall j :: 0 <= j < |s.blocks| ==> BlockOk(s'.blocks[j], g'.marks[j]))
    ensures var s', g' := EnqueueTail(s), TailGhost(s, g, s.prod.b);
            forall j :: 0 <= j <= g'.k ==> Holds(s'.blocks[g'.ring[j]], g'.marks[g'.ring[j]], s'.enq)
  {
    var PTail(e, i) := s.prod;
    var s', g' := EnqueueTail(s), TailGhost(s, g, i);
    assert Holds(s.blocks[g.ring[g.k]], g.marks[g.ring[g.k]], s.enq);
    PublishInBlock(s.blocks[i], g.marks[i], s.enq, e);
    forall j | 0 <= j <= g.k ensures Holds(s'.blocks[g.ring[j]], g'.marks[g.ring[j]], s'.enq) {
      assert Holds(s.blocks[g.ring[j]], g.marks[g.ring[j]], s.enq);
      if j < g.k { HoldsMore(s.blocks[g.ring[j]], g.marks[g.ring[j]], s.enq, e); }
    }
  }

  /** The element sits in the spare block, which is not yet the tail block. */
  lemma EnqueueSpareTailShape<T>(s: State<T>, g: Ghost)
    requires InvWith(s, g) && s.prod.PSpareTail? && Sane(s)
    ensures var s', g' := EnqueueSpareTail(s), TailGhost(s, g, s.prod.n);
            RingOk(s', g') && StretchesOk(s', g') && FillOk(s', g')
  {
    var s', g' := EnqueueSpareTail(s), TailGhost(s, g, s.prod.n);
    RingSame(s, g, s', g');
    forall j | 0 <= j < g.k ensures Adjacent(g', j) { assert Adjacent(g, j); }
  }

  lemma KeepEnqueueSpareTail<T>(s: State<T>, g: Ghost) returns (g': Ghost)
    requires InvWith(s, g) && s.prod.PSpareTail? && Sane(s)
    ensures InvWith(EnqueueSpareTail(s), g')
  {
    g' := TailGhost(s, g, s.prod.n);
    EnqueueSpareTailCore(s, g);
    EnqueueSpareTailPoints(s, g);
  }

  lemma EnqueueSpareTailCore<T>(s: State<T>, g: Ghost)
    requires InvWith(s, g) && s.prod.PSpareTail? && Sane(s)
    ensures Core(EnqueueSpareTail(s), TailGhost(s, g, s.prod.n))
  {
    var n := s.prod.n;
    var s', g' := EnqueueSpareTail(s), TailGhost(s, g, n);
    EnqueueSpareTailShape(s, g);
    SlotNext(g.marks[n].w, s.blocks[n].size);
    forall j | 0 <= j <= g.k ensures Holds(s'.blocks[g.ring[j]], g'.marks[g.ring[j]], s'.enq) {
      assert Holds(s.blocks[g.ring[j]], g.marks[g.ring[j]], s.enq);
    }
  }

  lemma EnqueueSpareTailPoints<T>(s: State<T>, g: Ghost)
    requires InvWith(s, g) && s.prod.PSpareTail? && Sane(s) && Core(EnqueueSpareTail(s), TailGhost(s, g, s.prod.n))
    ensures var s', g' := EnqueueSpareTail(s), TailGhost(s, g, s.prod.n); ProducerOk(s', g') && ConsumerOk(s', g')
  {
    SlotNext(g.marks[s.prod.n].w, s.blocks[s.prod.n].size);
  }

  ghost function SwitchGhost<T>(s: State<T>, g: Ghost, n: nat): Ghost
    requires n < |g.marks|
  {
    g.(k := g.k + 1, marks := g.marks[n := g.marks[n].(off := |s.enq| - g.marks[n].r)])
  }

  lemma EnqueueSwitchShape<T>(s: State<T>, g: Ghost)
    requires InvWith(s, g) && s.prod.PSwitch? && Sane(s)
    ensures var s', g' := EnqueueSwitch(s), SwitchGhost(s, g, s.prod.n);
            RingOk(s', g') && StretchesOk(s', g')
  {
    var s', g' := EnqueueSwitch(s), SwitchGhost(s, g, s.prod.n);
    forall j | 0 <= j < g'.k ensures Adjacent(g', j) { if j < g.k { assert Adjacent(g, j); } }
    forall j | 0 <= j <= g'.k ensures Within(g'.marks[g.ring[j]], |s'.deq|, |s'.enq|) {
      if j <= g.k { assert Within(g.marks[g.ring[j]], |s.deq|, |s.enq|); }
    }
  }

  lemma EnqueueSwitchFill<T>(s: State<T>, g: Ghost)
    requires InvWith(s, g) && s.prod.PSwitch? && Sane(s)
    requires RingOk(EnqueueSwitch(s), SwitchGhost(s, g, s.prod.n))
    ensures FillOk(EnqueueSwitch(s), SwitchGhost(s, g, s.prod.n))
  {
    var s', g' := EnqueueSwitch(s), SwitchGhost(s, g, s.prod.n);
    forall j | 1 <= j < g'.k ensures Full(s'.blocks[g'.ring[j]], g'.marks[g'.ring[j]]) {
      if j < g.k { assert Full(s.blocks[g.ring[j]], g.marks[g.ring[j]]); } else { assert TailFull(s, g); }
    }
  }

  lemma EnqueueSwitchHolds<T>(s: State<T>, g: Ghost, j: nat)
    requires InvWith(s, g) && s.prod.PSwitch? && Sane(s) && j <= g.k + 1
    ensures Holds(s.blocks[g.ring[j]], SwitchGhost(s, g, s.prod.n).marks[g.ring[j]], s.enq + [s.prod.e])
  {
    var PSwitch(e, n) := s.prod;
    var m := g.marks[n];
    if j <= g.k {
      HoldsMore(s.blocks[g.ring[j]], g.marks[g.ring[j]], s.enq, e);
    } else {
      assert HoldsAt(s.blocks[n], m.(off := |s.enq| - m.r), s.enq + [e], m.r);
    }
  }

  lemma KeepEnqueueSwitch<T>(s: State<T>, g: Ghost) returns (g': Ghost)
    requires InvWith(s, g) && s.prod.PSwitch? && Sane(s)
    ensures InvWith(EnqueueSwitch(s), g')
  {
    g' := SwitchGhost(s, g, s.prod.n);
    var s' := EnqueueSwitch(s);
    EnqueueSwitchShape(s, g);
    EnqueueSwitchFill(s, g);
    forall j | 0 <= j <= g'.k ensures Holds(s'.blocks[g.ring[j]], g'.marks[g.ring[j]], s'.enq) {
      EnqueueSwitchHolds(s, g, j);
    }
  }

  ghost function AllocGhost(g: Ghost): Ghost { g.(marks := g.marks + [Marks(0, 1, 0, 1, 0)]) }

  lemma EnqueueAllocShape<T>(s: State<T>, g: Ghost)
    requires InvWith(s, g) && s.prod.PAlloc? && Sane(s)
    ensures var s', g' := EnqueueAlloc(s, true), AllocGhost(g);
            RingOk(s', g') && StretchesOk(s', g') && FillOk(s', g')
  {
    var s', g' := EnqueueAlloc(s, true), AllocGhost(g);
    RingSame(s, g, s', g');
    forall j | 0 <= j < g.k ensures Adjacent(g', j) { assert Adjacent(g, j); }
  }

  lemma KeepEnqueueAlloc<T>(s: State<T>, g: Ghost)
    requires InvWith(s, g) && s.prod.PAlloc? && Sane(s)
    ensures InvWith(EnqueueAlloc(s, true), AllocGhost(g))
  {
    var s', g' := EnqueueAlloc(s, true), AllocGhost(g);
    EnqueueAllocShape(s, g);
    forall j | 0 <= j <= g.k ensures Holds(s'.blocks[g.ring[j]], g'.marks[g.ring[j]], s'.enq) {
      assert Holds(s.blocks[g.ring[j]], g.marks[g.ring[j]], s.enq);
    }
  }

  /** The new block enters the ring right after the tail block. */
  ghost function LinkGhost(g: Ghost, n: nat): Ghost
    requires g.k < |g.ring|
  {
    g.(ring := g.ring[..g.k + 1] + [n] + g.ring[g.k + 1..])
  }

  lemma LinkDistinct(g: Ghost, n: nat)
    requires g.k < |g.ring| && n !in g.ring
    requires forall i, j :: 0 <= i < j < |g.ring| ==> g.ring[i] != g.ring[j]
    ensures var ring := LinkGhost(g, n).ring;
            forall i, j :: 0 <= i < j < |ring| ==> ring[i] != ring[j]
  {
  }

  lemma LinkRing<T>(s: State<T>, g: Ghost)
    requires InvWith(s, g) && s.prod.PLink? && Sane(s)
    ensures RingOk(EnqueueLink(s), LinkGhost(g, s.prod.n))
  {
    LinkDistinct(g, s.prod.n);
    assert Linked(s.blocks, g.ring, g.k);
    LinksAll(s.blocks, EnqueueLink(s).blocks, g, s.prod.n);
  }

  lemma LinksAll<T>(blocks: seq<Block<T>>, blocks': seq<Block<T>>, g: Ghost, n: nat)
    requires g.k < |g.ring| && n < |blocks| && (forall i :: 0 <= i < |g.ring| ==> g.ring[i] < |blocks|) && n !in g.ring
    requires forall i, j :: 0 <= i < j < |g.ring| ==> g.ring[i] != g.ring[j]
    requires forall j :: 0 <= j < |g.ring| ==> Linked(blocks, g.ring, j)
    requires blocks' == blocks[g.ring[g.k] := blocks[g.ring[g.k]].(next := n)] && blocks[n].next == After(g.ring, g.k)
    ensures forall j :: 0 <= j < |LinkGhost(g, n).ring| ==> LinkGhost(g, n).ring[j] < |blocks'|
    ensures forall j :: 0 <= j < |LinkGhost(g, n).ring| ==> Linked(blocks', LinkGhost(g, n).ring, j)
  {
    var ring := LinkGhost(g, n).ring;
    forall j | 0 <= j < |ring| ensures ring[j] < |blocks'| && Linked(blocks', ring, j) {
      if j < g.k { assert Linked(blocks, g.ring, j); }
      else if j > g.k + 1 { assert Linked(blocks, g.ring, j - 1); }
      LinkRingAt(blocks, blocks', g, n, j);
    }
  }

  /** The links after the new block is linked in behind the tail block. */
  lemma LinkRingAt<T>(blocks: seq<Block<T>>, blocks': seq<Block<T>>, g: Ghost, n: nat, j: nat)
    requires g.k < |g.ring| && n < |blocks| && (forall i :: 0 <= i < |g.ring| ==> g.ring[i] < |blocks|) && n !in g.ring
    requires forall i, j :: 0 <= i < j < |g.ring| ==> g.ring[i] != g.ring[j]
    requires blocks' == blocks[g.ring[g.k] := blocks[g.ring[g.k]].(next := n)]
    requires blocks[n].next == After(g.ring, g.k) && j < |LinkGhost(g, n).ring|
    requires j < g.k ==> Linked(blocks, g.ring, j)
    requires j > g.k + 1 ==> Linked(blocks, g.ring, j - 1)
    ensures LinkGhost(g, n).ring[j] < |blocks'| && Linked(blocks', LinkGhost(g, n).ring, j)
  {
    var ring := LinkGhost(g, n).ring;
    assert ring[j] == if j <= g.k then g.ring[j] else if j == g.k + 1 then n else g.ring[j - 1];
  }

  lemma LinkShape<T>(s: State<T>, g: Ghost)
    requires InvWith(s, g) && s.prod.PLink? && Sane(s)
    requires RingOk(EnqueueLink(s), LinkGhost(g, s.prod.n))
    ensures var s', g' := EnqueueLink(s), LinkGhost(g, s.prod.n);
            StretchesOk(s', g') && FillOk(s', g')
  {
    var s', g' := EnqueueLink(s), LinkGhost(g, s.prod.n);
    forall j | 0 <= j < g.k ensures Adjacent(g', j) { assert Adjacent(g, j); }
  }

  lemma KeepEnqueueLink<T>(s: State<T>, g: Ghost) returns (g': Ghost)
    requires InvWith(s, g) && s.prod.PLink? && Sane(s)
    ensures InvWith(EnqueueLink(s), g')
  {
    g' := LinkGhost(g, s.prod.n);
    LinkRing(s, g);
    LinkShape(s, g);
    LinkHolds(s, g);
    LinkEnds(s, g);
  }

  /** The other blocks, and the two threads. */
  lemma LinkEnds<T>(s: State<T>, g: Ghost)
    requires InvWith(s, g) && s.prod.PLink? && Sane(s)
    requires RingOk(EnqueueLink(s), LinkGhost(g, s.prod.n))
    ensures var s', g' := EnqueueLink(s), LinkGhost(g, s.prod.n);
            && |g'.marks| == |s'.blocks| && ProducerOk(s', g') && ConsumerOk(s', g') && SizesOk(s', g')
  {
  }

  lemma LinkHolds<T>(s: State<T>, g: Ghost)
    requires InvWith(s, g) && s.prod.PLink? && Sane(s)
    requires RingOk(EnqueueLink(s), LinkGhost(g, s.prod.n)) && |LinkGhost(g, s.prod.n).marks| == |EnqueueLink(s).blocks|
    ensures var s', g' := EnqueueLink(s), LinkGhost(g, s.prod.n);
            forall j :: 0 <= j <= g'.k ==> Holds(s'.blocks[g'.ring[j]], g'.marks[g'.ring[j]], s'.enq)
  {
    var i := s.prod.b;
    var s', g' := EnqueueLink(s), LinkGhost(g, s.prod.n);
    forall j | 0 <= j <= g'.k ensures Holds(s'.blocks[g'.ring[j]], g'.marks[g'.ring[j]], s'.enq) {
      assert Holds(s.blocks[g.ring[j]], g.marks[g.ring[j]], s.enq);
      if j == g.k { HoldsSame(s.blocks[i], g.marks[i], s'.blocks[i], g.marks[i], s.enq); }
    }
  }

  // ---------------------------------------------------------------------------
  // The consumer's steps keep the invariant

  lemma EmptyTest<T>(b: Block<T>, m: Marks, tail: nat, w: nat)
    requires BlockOk(b, m) && m.r <= w <= m.w && tail == Slot(w, b.size)
    ensures b.front == tail <==> m.r == w
  {
    if b.front == tail { SlotInjective(m.r, w, b.size); }
  }

  lemma KeepDequeueStart<T>(s: State<T>, g: Ghost, op: Op)
    requires InvWith(s, g) && s.cons.CIdle? && Sane(s)
    ensures InvWith(DequeueStart(s, op), g)
  {
    var b, m := s.blocks[s.frontBlock], g.marks[s.frontBlock];
    EmptyTest(b, m, b.localTail, m.lt);
    CoreMoves(s, g, s.prod, DequeueStart(s, op).cons);
  }

  /** Blocks and marks differ in the consumer's copies only. */
  ghost predicate SameButCopies<T>(s: State<T>, g: Ghost, s': State<T>, g': Ghost)
  {
    && s'.prod == s.prod && s'.tailBlock == s.tailBlock && g'.ring == g.ring && g'.k == g.k
    && |s.blocks| == |g.marks| == |s'.blocks| == |g'.marks|
    && (forall j :: 0 <= j < |s.blocks| ==> SameBlock(s.blocks[j], s'.blocks[j]))
    && (forall j :: 0 <= j < |g.marks| ==> SameMarks(g.marks[j], g'.marks[j]))
  }

  ghost predicate SameBlock<T>(b: Block<T>, b': Block<T>)
  {
    b' == b.(localTail := b'.localTail)
  }

  ghost predicate SameMarks(m: Marks, m': Marks)
  {
    m' == m.(lt := m'.lt)
  }

  /** The producer's facts do not depend on the consumer's copies. */
  lemma CopiesApart<T>(s: State<T>, g: Ghost, s': State<T>, g': Ghost)
    requires RingOk(s, g) && RingOk(s', g') && SameButCopies(s, g, s', g') && ProducerOk(s, g)
    ensures ProducerOk(s', g')
  {
    assert TailFull(s, g) ==> TailFull(s', g') by {
      assert SameBlock(s.blocks[s.tailBlock], s'.blocks[s.tailBlock]) && SameMarks(g.marks[s.tailBlock], g'.marks[s.tailBlock]);
    }
    match s.prod
    case PLink(_, b, n) => assert SameBlock(s.blocks[b], s'.blocks[b]);
    case _ =>
  }

  lemma RefreshProducer<T>(s: State<T>, g: Ghost, i: nat)
    requires Core(s, g) && ProducerOk(s, g) && i < |s.blocks|
    requires RingOk(WithBlock(s, i, s.blocks[i].(localTail := s.blocks[i].tail)), g)
    ensures ProducerOk(WithBlock(s, i, s.blocks[i].(localTail := s.blocks[i].tail)),
                       WithMarks(g, i, g.marks[i].(lt := g.marks[i].w)))
  {
    CopiesApart(s, g, WithBlock(s, i, s.blocks[i].(localTail := s.blocks[i].tail)), WithMarks(g, i, g.marks[i].(lt := g.marks[i].w)));
  }

  /** The consumer refreshes its copy of a block's tail. */
  lemma RefreshTail<T>(s: State<T>, g: Ghost, i: nat) returns (s': State<T>, g': Ghost)
    requires Core(s, g) && ProducerOk(s, g) && i < |s.blocks|
    ensures s' == WithBlock(s, i, s.blocks[i].(localTail := s.blocks[i].tail))
    ensures g' == WithMarks(g, i, g.marks[i].(lt := g.marks[i].w))
    ensures Core(s', g') && ProducerOk(s', g')
    ensures s.blocks[i].front == s.blocks[i].tail <==> g.marks[i].r == g.marks[i].w
  {
    var b, m := s.blocks[i], g.marks[i];
    EmptyTest(b, m, b.tail, m.w);
    s' := WithBlock(s, i, b.(localTail := b.tail));
    g' := WithMarks(g, i, m.(lt := m.w));
    CoreUpdates(s, g, i, b.(localTail := b.tail), m.(lt := m.w));
    RefreshProducer(s, g, i);
  }

  lemma KeepDequeueTail<T>(s: State<T>, g: Ghost) returns (g': Ghost)
    requires InvWith(s, g) && s.cons.CTail? && Sane(s)
    ensures InvWith(DequeueTail(s), g')
  {
    var s1: State<T>;
    s1, g' := RefreshTail(s, g, s.cons.b);
    CoreMoves(s1, g', s.prod, DequeueTail(s).cons);
  }

  lemma KeepDequeueBlock<T>(s: State<T>, g: Ghost)
    requires InvWith(s, g) && s.cons.CBlock? && Sane(s)
    ensures InvWith(DequeueBlock(s), g)
  {
    CoreMoves(s, g, s.prod, DequeueBlock(s).cons);
  }

  lemma KeepDequeueAgain<T>(s: State<T>, g: Ghost) returns (g': Ghost)
    requires InvWith(s, g) && s.cons.CAgain? && Sane(s)
    ensures InvWith(DequeueAgain(s), g')
  {
    var s1: State<T>;
    s1, g' := RefreshTail(s, g, s.cons.b);
    CoreMoves(s1, g', s.prod, DequeueAgain(s).cons);
  }

  lemma KeepDequeueNext<T>(s: State<T>, g: Ghost)
    requires InvWith(s, g) && s.cons.CNext? && Sane(s)
    ensures InvWith(DequeueNext(s), g)
  {
    assert Linked(s.blocks, g.ring, 0);
    CoreMoves(s, g, s.prod, DequeueNext(s).cons);
  }

  lemma KeepDequeueNextTail<T>(s: State<T>, g: Ghost) returns (g': Ghost)
    requires InvWith(s, g) && s.cons.CNextTail? && Sane(s)
    ensures InvWith(DequeueNextTail(s), g')
  {
    g' := g;
    if s.cons.op.Peek? {
      CoreMoves(s, g, s.prod, DequeueNextTail(s).cons);
    } else {
      var s1: State<T>;
      s1, g' := RefreshTail(s, g, s.cons.n);
      CoreMoves(s1, g', s.prod, DequeueNextTail(s).cons);
    }
  }

  /** The drained front block goes to the end of the ring. */
  ghost function RotateGhost(g: Ghost): Ghost
    requires |g.ring| > 0 && g.k > 0
  {
    g.(ring := g.ring[1..] + [g.ring[0]], k := g.k - 1)
  }

  lemma RotateRing<T>(s: State<T>, g: Ghost)
    requires InvWith(s, g) && s.cons.CSwitch? && Sane(s)
    ensures RingOk(DequeueSwitch(s), RotateGhost(g))
  {
    var s', g' := DequeueSwitch(s), RotateGhost(g);
    forall j | 0 <= j < |g'.ring| ensures Linked(s'.blocks, g'.ring, j) {
      if j < |g.ring| - 1 { assert Linked(s.blocks, g.ring, j + 1); }
      else { assert Linked(s.blocks, g.ring, 0); }
    }
  }

  lemma RotateShape<T>(s: State<T>, g: Ghost)
    requires InvWith(s, g) && s.cons.CSwitch? && Sane(s)
    requires RingOk(DequeueSwitch(s), RotateGhost(g))
    ensures var s', g' := DequeueSwitch(s), RotateGhost(g);
            StretchesOk(s', g') && FillOk(s', g')
  {
    var s', g' := DequeueSwitch(s), RotateGhost(g);
    assert forall j :: 0 <= j < |g.ring| - 1 ==> g'.ring[j] == g.ring[j + 1];
    assert Adjacent(g, 0);
    forall j | 0 <= j < g'.k ensures Adjacent(g', j) { assert Adjacent(g, j + 1); }
    forall j | 1 <= j < g'.k ensures Full(s'.blocks[g'.ring[j]], g'.marks[g'.ring[j]]) {
      assert Full(s.blocks[g.ring[j + 1]], g.marks[g.ring[j + 1]]);
    }
  }

  lemma KeepDequeueSwitch<T>(s: State<T>, g: Ghost) returns (g': Ghost)
    requires InvWith(s, g) && s.cons.CSwitch? && Sane(s)
    ensures InvWith(DequeueSwitch(s), g')
  {
    g' := RotateGhost(g);
    CoreDequeueSwitch(s, g);
  }

  lemma CoreDequeueSwitch<T>(s: State<T>, g: Ghost)
    requires InvWith(s, g) && s.cons.CSwitch? && Sane(s)
    ensures Core(DequeueSwitch(s), RotateGhost(g))
  {
    var g' := RotateGhost(g);
    var s' := DequeueSwitch(s);
    RotateRing(s, g);
    RotateShape(s, g);
    forall j | 0 <= j <= g'.k ensures Holds(s'.blocks[g'.ring[j]], g'.marks[g'.ring[j]], s'.enq) {
      assert Holds(s.blocks[g.ring[j + 1]], g.marks[g.ring[j + 1]], s.enq);
    }
  }

  /** The cell the consumer is about to read holds the oldest element. */
  lemma ReadsOldest<T>(s: State<T>, g: Ghost)
    requires InvWith(s, g) && s.cons.CRead? && Sane(s)
    ensures |s.deq| < |s.enq|
    ensures var b := s.blocks[s.cons.n]; b.data[b.front] == Val(s.enq[|s.deq|])
  {
    var n := s.cons.n;
    var m := g.marks[n];
    if n == g.ring[0] && m.r < m.lt {
      assert Holds(s.blocks[g.ring[0]], g.marks[g.ring[0]], s.enq);
    } else {
      assert Adjacent(g, 0);
      assert Holds(s.blocks[g.ring[1]], g.marks[g.ring[1]], s.enq);
    }
    assert HoldsAt(s.blocks[n], m, s.enq, m.r);
  }

  lemma KeepDequeueRead<T>(s: State<T>, g: Ghost)
    requires InvWith(s, g) && s.cons.CRead? && Sane(s)
    ensures InvWith(DequeueRead(s), g)
  {
    ReadsOldest(s, g);
    CoreMoves(s, g, s.prod, DequeueRead(s).cons);
  }

  ghost function FrontGhost(g: Ghost, n: nat): Ghost
    requires n < |g.marks|
  {
    WithMarks(g, n, g.marks[n].(r := g.marks[n].r + 1))
  }

  lemma DequeueFrontShape<T>(s: State<T>, g: Ghost)
    requires InvWith(s, g) && s.cons.CFront? && Sane(s)
    ensures var s', g' := DequeueFront(s), FrontGhost(g, s.cons.n);
            RingOk(s', g') && StretchesOk(s', g') && FillOk(s', g')
  {
    RingSame(s, g, DequeueFront(s), FrontGhost(g, s.cons.n));
    DequeueFrontStretches(s, g);
  }

  lemma DequeueFrontStretches<T>(s: State<T>, g: Ghost)
    requires InvWith(s, g) && s.cons.CFront? && Sane(s) && RingOk(DequeueFront(s), FrontGhost(g, s.cons.n))
    ensures StretchesOk(DequeueFront(s), FrontGhost(g, s.cons.n))
  {
    var s', g' := DequeueFront(s), FrontGhost(g, s.cons.n);
    forall j | 0 <= j < g.k ensures Adjacent(g', j) { assert Adjacent(g, j); }
    forall j | 0 <= j <= g.k ensures Within(g'.marks[g.ring[j]], |s'.deq|, |s'.enq|) {
      assert Within(g.marks[g.ring[j]], |s.deq|, |s.enq|);
      LaterStretch(s, g, j);
    }
  }

  lemma HoldsLess<T>(b: Block<T>, m: Marks, enq: seq<T>)
    requires BlockOk(b, m) && Holds(b, m, enq) && m.r < m.lt
    ensures BlockOk(b.(front := NextIndex(b.front, b.size)), m.(r := m.r + 1))
    ensures Holds(b.(front := NextIndex(b.front, b.size)), m.(r := m.r + 1), enq)
  {
    SlotNext(m.r, b.size);
    var b', m' := b.(front := NextIndex(b.front, b.size)), m.(r := m.r + 1);
    forall c | m'.r <= c < m'.w ensures HoldsAt(b', m', enq, c) { assert HoldsAt(b, m, enq, c); }
  }

  lemma KeepDequeueFront<T>(s: State<T>, g: Ghost) returns (g': Ghost)
    requires InvWith(s, g) && s.cons.CFront? && Sane(s)
    ensures InvWith(DequeueFront(s), g')
  {
    g' := FrontGhost(g, s.cons.n);
    CoreDequeueFront(s, g);
    DequeueFrontPoints(s, g);
  }

  lemma DequeueFrontPoints<T>(s: State<T>, g: Ghost)
    requires RingOk(s, g) && |g.marks| == |s.blocks| && ProducerOk(s, g) && s.cons.CFront? && Sane(s) && s.cons.n == s.frontBlock
    requires g.marks[s.cons.n].r < g.marks[s.cons.n].lt
    requires var s', g' := DequeueFront(s), FrontGhost(g, s.cons.n); |g'.marks| == |s'.blocks| && RingOk(s', g')
    ensures var s', g' := DequeueFront(s), FrontGhost(g, s.cons.n); ProducerOk(s', g') && ConsumerOk(s', g')
  {
  }

  lemma CoreDequeueFront<T>(s: State<T>, g: Ghost)
    requires InvWith(s, g) && s.cons.CFront? && Sane(s)
    ensures Core(DequeueFront(s), FrontGhost(g, s.cons.n))
  {
    DequeueFrontShape(s, g);
    DequeueFrontBlocks(s, g);
    DequeueFrontHolds(s, g);
  }

  lemma DequeueFrontBlocks<T>(s: State<T>, g: Ghost)
    requires InvWith(s, g) && s.cons.CFront? && Sane(s)
    ensures var s', g' := DequeueFront(s), FrontGhost(g, s.cons.n);
            && |s'.blocks| == |s.blocks| == |g'.marks| && SizesOk(s', g')
            && (forall j :: 0 <= j < |s.blocks| ==> BlockOk(s'.blocks[j], g'.marks[j]) && s'.blocks[j].next < |s.blocks|)
  {
    var n := s.cons.n;
    assert Holds(s.blocks[g.ring[0]], g.marks[g.ring[0]], s.enq);
    HoldsLess(s.blocks[n], g.marks[n], s.enq);
  }

  lemma DequeueFrontHolds<T>(s: State<T>, g: Ghost)
    requires InvWith(s, g) && s.cons.CFront? && Sane(s)
    requires var s', g' := DequeueFront(s), FrontGhost(g, s.cons.n); |s'.blocks| == |s.blocks| == |g'.marks| && RingOk(s', g')
    requires var s', g' := DequeueFront(s), FrontGhost(g, s.cons.n);
             forall j :: 0 <= j < |s'.blocks| ==> BlockOk(s'.blocks[j], g'.marks[j])
    ensures var s', g' := DequeueFront(s), FrontGhost(g, s.cons.n);
            forall j :: 0 <= j <= g'.k ==> Holds(s'.blocks[g'.ring[j]], g'.marks[g'.ring[j]], s'.enq)
  {
    var n, s', g' := s.cons.n, DequeueFront(s), FrontGhost(g, s.cons.n);
    assert Holds(s.blocks[g.ring[0]], g.marks[g.ring[0]], s.enq);
    HoldsLess(s.blocks[n], g.marks[n], s.enq);
    forall j | 0 <= j <= g'.k ensures Holds(s'.blocks[g'.ring[j]], g'.marks[g'.ring[j]], s'.enq) {
      assert Holds(s.blocks[g.ring[j]], g.marks[g.ring[j]], s.enq);
    }
  }

  /** Every occupied block but the first starts after the first block's elements. */
  lemma {:induction false} LaterStretch<T>(s: State<T>, g: Ghost, j: nat)
    requires Core(s, g) && j <= g.k
    ensures j > 0 ==> g.marks[g.ring[0]].off + g.marks[g.ring[0]].w <= g.marks[g.ring[j]].off + g.marks[g.ring[j]].r
  {
    if j > 0 {
      LaterStretch(s, g, j - 1);
      assert Adjacent(g, j - 1);
      assert BlockOk(s.blocks[g.ring[j - 1]], g.marks[g.ring[j - 1]]);
    }
  }

  // ---------------------------------------------------------------------------
  // Runs

  /** An empty queue: a ring of equal raw blocks with room for `maxSize` elements. */
  ghost predicate NewQueue<T>(s: State<T>)
  {
    && |s.blocks| >= 1 && s.largest >= 2 && s.frontBlock == 0 && s.tailBlock == 0
    && (forall j :: 0 <= j < |s.blocks| ==>
          s.blocks[j] == NewBlock(s.largest, if j + 1 < |s.blocks| then j + 1 else 0))
    && s.enq == [] && s.deq == [] && s.prod == PIdle && s.cons == CIdle
    && s.maxSize <= Capacity(|s.blocks|, s.largest)
  }

  datatype Action<T> =
    | Produce(e: T, alloc: bool, available: bool)  // a producer step; the call it starts, the outcome of an allocation
    | Consume(op: Op)

  ghost function Step<T>(s: State<T>, a: Action<T>): State<T>
  {
    if !Sane(s) || s.largest == 0 then s else
    match a
    case Produce(e, alloc, available) => ProducerStep(s, e, alloc, available)
    case Consume(op) => ConsumerStep(s, op)
  }

  lemma ProduceKeeps<T>(s: State<T>, g: Ghost, e: T, alloc: bool, available: bool) returns (g': Ghost)
    requires InvWith(s, g) && Sane(s) && s.largest > 0
    ensures InvWith(ProducerStep(s, e, alloc, available), g')
  {
    g' := g;
    match s.prod
    case PIdle => KeepEnqueueStart(s, g, e, alloc);
    case PFront(_, _, _) => g' := KeepEnqueueFront(s, g);
    case PWrite(_, _) => g' := KeepEnqueueWrite(s, g);
    case PTail(_, _) => g' := KeepEnqueueTail(s, g);
    case PFull(_, _, _, _) => KeepEnqueueFull(s, g);
    case PSpare(_, _) => g' := KeepEnqueueSpare(s, g);
    case PSpareWrite(_, _) => KeepEnqueueSpareWrite(s, g);
    case PSpareTail(_, _) => g' := KeepEnqueueSpareTail(s, g);
    case PAlloc(_, _) =>
      if available { KeepEnqueueAlloc(s, g); g' := AllocGhost(g); } else { CoreMoves(s, g, PIdle, s.cons); }
    case PLink(_, _, _) => g' := KeepEnqueueLink(s, g);
    case PSwitch(_, _) => g' := KeepEnqueueSwitch(s, g);
  }

  lemma ConsumeKeeps<T>(s: State<T>, g: Ghost, op: Op) returns (g': Ghost)
    requires InvWith(s, g) && Sane(s)
    ensures InvWith(ConsumerStep(s, op), g')
  {
    g' := g;
    match s.cons
    case CIdle => KeepDequeueStart(s, g, op);
    case CTail(_, _) => g' := KeepDequeueTail(s, g);
    case CBlock(_, _, _) => KeepDequeueBlock(s, g);
    case CAgain(_, _) => g' := KeepDequeueAgain(s, g);
    case CNext(_, _) => KeepDequeueNext(s, g);
    case CNextTail(_, _, _) => g' := KeepDequeueNextTail(s, g);
    case CSwitch(_, _) => g' := KeepDequeueSwitch(s, g);
    case CRead(_, _) => KeepDequeueRead(s, g);
    case CFront(_, _, _) => g' := KeepDequeueFront(s, g);
  }

  lemma StepKeeps<T>(s: State<T>, a: Action<T>)
    requires Inv(s)
    ensures Inv(Step(s, a)) && Sane(Step(s, a))
  {
    var g :| InvWith(s, g);
    InvIsSane(s, g);
    var g': Ghost;
    match a {
      case Produce(e, alloc, available) => g' := ProduceKeeps(s, g, e, alloc, available);
      case Consume(op) => g' := ConsumeKeeps(s, g, op);
    }
    InvIsSane(Step(s, a), g');
  }

  ghost function Run<T>(s: State<T>, actions: seq<Action<T>>): State<T>
  {
    if |actions| == 0 then s else Step(Run(s, actions[..|actions| - 1]), actions[|actions| - 1])
  }

  lemma {:induction false} RunInvariant<T>(s: State<T>, actions: seq<Action<T>>)
    requires NewQueue(s)
    ensures Inv(Run(s, actions)) && Sane(Run(s, actions))
  {
    if |actions| == 0 {
      NewQueueInvariant(s);
      var g :| InvWith(s, g);
      InvIsSane(s, g);
    } else {
      RunInvariant(s, actions[..|actions| - 1]);
      StepKeeps(Run(s, actions[..|actions| - 1]), actions[|actions| - 1]);
    }
  }

  /** Every block size is a power of two, so that masking with `size - 1` wraps an index. */
  ghost predicate PowerSizes<T>(s: State<T>)
  {
    IsPower(s.largest) && forall i :: 0 <= i < |s.blocks| ==> IsPower(s.blocks[i].size)
  }

  ghost predicate IsPower(n: nat) { exists e: nat :: n == Pow2(e) }

  lemma ProducerKeepsPowers<T>(s: State<T>, e: T, alloc: bool, available: bool)
    requires PowerSizes(s) && Sane(s) && s.largest > 0
    ensures PowerSizes(ProducerStep(s, e, alloc, available))
  {
    if s.prod.PAlloc? {
      var e: nat :| s.largest == Pow2(e);
      assert s.largest * 2 == Pow2(e + 1);
      assert IsPower(NewBlockSize(s.largest, s.maxBlock));
    }
  }

  lemma ConsumerKeepsPowers<T>(s: State<T>, op: Op)
    requires PowerSizes(s) && Sane(s)
    ensures PowerSizes(ConsumerStep(s, op))
  {
  }

  lemma StepKeepsPowers<T>(s: State<T>, a: Action<T>)
    requires PowerSizes(s)
    ensures PowerSizes(Step(s, a))
  {
    if Sane(s) && s.largest > 0 {
      match a
      case Produce(e, alloc, available) => ProducerKeepsPowers(s, e, alloc, available);
      case Consume(op) => ConsumerKeepsPowers(s, op);
    }
  }

  /** The wrapped successor of an index is the code's masking. */
  lemma NextIndexIsMask(i: nat, e: nat)
    requires i < Pow2(e)
    ensures NextIndex(i, Pow2(e)) == And(i + 1, Pow2(e) - 1)
  {
    MaskIsRemainder(i + 1, e);
    if i + 1 == Pow2(e) { ModUnique(i + 1, 1, 0, Pow2(e)); } else { ModUnique(i + 1, 0, i + 1, Pow2(e)); }
  }

  lemma {:induction false} RunKeepsPowers<T>(s: State<T>, actions: seq<Action<T>>)
    requires PowerSizes(s)
    ensures PowerSizes(Run(s, actions))
  {
    if |actions| > 0 {
      RunKeepsPowers(s, actions[..|actions| - 1]);
      StepKeepsPowers(Run(s, actions[..|actions| - 1]), actions[|actions| - 1]);
    }
  }

  /** Masking an index of any block with the block's size minus one is what the model's
      wrapping does. */
  ghost predicate MaskWraps<T>(s: State<T>)
  {
    forall b: nat, i: nat :: b < |s.blocks| && i < s.blocks[b].size ==> MasksAt(i, s.blocks[b].size)
  }

  predicate MasksAt(i: nat, size: nat)
    requires i < size
  {
    NextIndex(i, size) == And(i + 1, size - 1)
  }

  /** So it is in every run of a queue as constructed. */
  lemma MaskingWraps<T>(s0: State<T>, actions: seq<Action<T>>)
    requires PowerSizes(s0)
    ensures MaskWraps(Run(s0, actions))
  {
    RunKeepsPowers(s0, actions);
    MaskWrapsIn(Run(s0, actions));
  }

  lemma MaskWrapsIn<T>(s: State<T>)
    requires PowerSizes(s)
    ensures MaskWraps(s)
  {
    forall b: nat, i: nat | b < |s.blocks| && i < s.blocks[b].size ensures MasksAt(i, s.blocks[b].size) {
      assert IsPower(s.blocks[b].size);
      var e: nat :| s.blocks[b].size == Pow2(e);
      NextIndexIsMask(i, e);
    }
  }

  // ---------------------------------------------------------------------------
  // Construction

  /** The constructor: one block for small requests, otherwise a ring of blocks of the
      maximal size. It gives a queue with room for `maxSize` elements exactly when that is
      below 2^63; from there on the rounding wraps to zero and the one block has no room. */
  method Construct<T>(maxSize: nat, maxBlock: nat) returns (s: State<T>)
    requires 0 < maxSize < WORD && IsPower(maxBlock) && 2 <= maxBlock < HALF
    ensures s.maxSize == maxSize && s.maxBlock == maxBlock
    ensures NewQueue(s) <==> maxSize < HALF
    ensures if maxSize < HALF then PowerSizes(s) else s.blocks == [NewBlock(0, 0)]
  {
    var largest := CeilToPow2(Wrap(maxSize + 1));
    var blocks: seq<Block<T>>;
    if largest > maxBlock * 2 {
      var count := InitialBlockCount(maxSize, maxBlock);
      largest := maxBlock;
      blocks := [NewBlock(largest, 0)];
      var i := 1;
      while i != count
        invariant 1 <= i <= count && |blocks| == i
        invariant forall j :: 0 <= j < i ==> blocks[j] == NewBlock(largest, if j + 1 < i then j + 1 else 0)
      {
        blocks := blocks[i - 1 := blocks[i - 1].(next := i)] + [NewBlock(largest, 0)];
        i := i + 1;
      }
    } else {
      blocks := [NewBlock(largest, 0)];
    }
    s := State(blocks, 0, 0, largest, maxBlock, maxSize, [], [], PIdle, CIdle);
  }

  /** One block more than the least number of blocks whose usable elements are `maxSize` or more. */
  method InitialBlockCount(maxSize: nat, maxBlock: nat) returns (count: nat)
    requires maxSize > 0 && maxBlock >= 2
    ensures count >= 2 && Times(count - 2, maxBlock - 1) < maxSize <= Times(count - 1, maxBlock - 1)
  {
    count := (maxSize + maxBlock * 2 - 3) / (maxBlock - 1);
    BlockCount(maxSize, maxBlock, count);
  }

  /** The block count of the constructor leaves room for `maxSize` elements. */
  lemma BlockCount(maxSize: nat, maxBlock: nat, count: nat)
    requires maxSize > 0 && maxBlock >= 2 && count == (maxSize + maxBlock * 2 - 3) / (maxBlock - 1)
    ensures count >= 2 && Times(count - 2, maxBlock - 1) < maxSize <= Times(count - 1, maxBlock - 1)
  {
    var d := maxBlock - 1;
    var n := maxSize + maxBlock * 2 - 3;
    assert n == count * d + n % d;
    TimesIsProduct(count - 1, d);
    TimesIsProduct(count - 2, d);
    assert (count - 1) * d == count * d - d && (count - 2) * d == count * d - 2 * d;
  }

  lemma {:induction false} TimesIsProduct(n: int, x: nat)
    ensures n >= 0 ==> Times(n, x) == n * x
  {
    if n > 0 {
      TimesIsProduct(n - 1, x);
      assert n * x == (n - 1) * x + x;
    }
  }

  lemma NewQueueInvariant<T>(s: State<T>)
    requires NewQueue(s)
    ensures Inv(s)
  {
    var g := Ghost(seq(|s.blocks|, i => i), 0, seq(|s.blocks|, i => Marks(0, 0, 0, 0, 0)), s.largest);
    assert RingOk(s, g) by {
      forall i | 0 <= i < |g.ring| ensures Linked(s.blocks, g.ring, i) { }
    }
    assert InvWith(s, g);
  }

  // ---------------------------------------------------------------------------
  // What the queue promises

  /** FIFO: for every interleaving, what has been removed is a prefix of what has been
      added, in order, and a consumer about to read finds the oldest element: what
      peek returns and what try_dequeue and pop remove. */
  lemma Fifo<T>(s0: State<T>, actions: seq<Action<T>>)
    requires NewQueue(s0)
    ensures var s := Run(s0, actions);
            && s.deq <= s.enq
            && (s.cons.CRead? && s.cons.n < |s.blocks| && s.blocks[s.cons.n].front < |s.blocks[s.cons.n].data| ==>
                  && |s.deq| < |s.enq|
                  && s.blocks[s.cons.n].data[s.blocks[s.cons.n].front] == Val(s.enq[|s.deq|]))
            && (s.cons.CFront? ==> |s.deq| < |s.enq| && s.cons.v == s.enq[|s.deq|])
  {
    RunInvariant(s0, actions);
    var s := Run(s0, actions);
    var g :| InvWith(s, g);
    if s.cons.CRead? { ReadsOldest(s, g); }
  }

  /** The code's assertions: a consumer that moves on finds the next block non-empty, a
      producer that moves on finds it empty. */
  lemma NextBlockAssertions<T>(s0: State<T>, actions: seq<Action<T>>)
    requires NewQueue(s0)
    ensures var s := Run(s0, actions);
            && Sane(s)
            && (s.cons.CNextTail? ==> s.blocks[s.cons.n].front != s.blocks[s.cons.n].tail)
            && (s.prod.PSpare? ==> var n := s.blocks[s.prod.b].next; s.blocks[n].front == s.blocks[n].tail)
  {
    RunInvariant(s0, actions);
    var s := Run(s0, actions);
    var g :| InvWith(s, g);
    if s.cons.CNextTail? {
      var n := s.cons.n;
      EmptyTest(s.blocks[n], g.marks[n], s.blocks[n].tail, g.marks[n].w);
    }
    if s.prod.PSpare? { assert Linked(s.blocks, g.ring, g.k); }
  }

  /** A dequeue that is about to report "empty" was right at the moment it loaded the
      front block's tail: all elements enqueued by then had been removed. */
  lemma EmptyIsRight<T>(s0: State<T>, actions: seq<Action<T>>)
    requires NewQueue(s0)
    requires var s := Run(s0, actions); s.cons.CBlock? && s.cons.b == s.tailBlock
    ensures var s := Run(s0, actions); s.cons.seen == |s.deq|
  {
    RunInvariant(s0, actions);
    var s := Run(s0, actions);
    var g :| InvWith(s, g);
    assert g.ring[0] == g.ring[g.k];
  }

  /** try_enqueue is about to give up only if at least maxSize elements were queued when
      it found the tail block full, or are queued now. */
  lemma FullIsRight<T>(s0: State<T>, actions: seq<Action<T>>)
    requires NewQueue(s0)
    requires var s := Run(s0, actions);
             s.prod.PFull? && s.prod.b < |s.blocks| && s.blocks[s.prod.b].next == s.frontBlock
    ensures var s := Run(s0, actions);
            s.prod.queued >= s.maxSize || Queued(s) >= s.maxSize
  {
    RunInvariant(s0, actions);
    var s := Run(s0, actions);
    var g :| InvWith(s, g);
    FullRing(s, g);
  }

  lemma FullRing<T>(s: State<T>, g: Ghost)
    requires Core(s, g) && ProducerOk(s, g) && s.prod.PFull? && s.blocks[s.tailBlock].next == s.frontBlock
    ensures s.prod.queued >= s.maxSize || Queued(s) >= s.maxSize
  {
    assert Linked(s.blocks, g.ring, g.k);
    assert g.k == |g.ring| - 1;
    if g.k >= 1 { FullBlocks(s, g, g.k); }
  }

  /** The blocks strictly between the front block and block `j` hold `least - 1` each. */
  lemma {:induction false} FullBlocks<T>(s: State<T>, g: Ghost, j: nat)
    requires Core(s, g) && 1 <= j <= g.k
    ensures g.marks[g.ring[j]].off + g.marks[g.ring[j]].r >= |s.deq| + Times(j - 1, g.least - 1)
  {
    assert Adjacent(g, j - 1);
    if j == 1 {
      assert BlockOk(s.blocks[g.ring[0]], g.marks[g.ring[0]]);
    } else {
      FullBlocks(s, g, j - 1);
      assert Full(s.blocks[g.ring[j - 1]], g.marks[g.ring[j - 1]]);
    }
  }

  // ---------------------------------------------------------------------------
  // The outcome of a call

  lemma {:induction false} RunJoins<T>(s: State<T>, first: seq<Action<T>>, more: seq<Action<T>>)
    ensures Run(s, first + more) == Run(Run(s, first), more)
  {
    if |more| == 0 {
      assert first + more == first;
    } else {
      var n := |more| - 1;
      assert (first + more)[..|first + more| - 1] == first + more[..n];
      RunJoins(s, first, more[..n]);
    }
  }

  /** `s` occurs in some run of a constructed queue. */
  ghost predicate Reachable<T(!new)>(s: State<T>)
  {
    exists s0: State<T>, actions :: NewQueue(s0) && s == Run(s0, actions)
  }

  lemma RunReachable<T(!new)>(s: State<T>, actions: seq<Action<T>>)
    requires Reachable(s)
    ensures Inv(Run(s, actions)) && Sane(Run(s, actions)) && Run(s, actions).largest >= 2
  {
    var s0, before :| NewQueue(s0) && s == Run(s0, before);
    RunJoins(s0, before, actions);
    RunInvariant(s0, before + actions);
  }

  lemma ReachableSane<T(!new)>(s: State<T>)
    requires Reachable(s)
    ensures Sane(s) && s.largest >= 2
  {
    RunReachable(s, []);
  }

  /** The consumer's whole call of `op`, with steps of the producer in between. */
  ghost predicate IsDequeue<T>(s: State<T>, actions: seq<Action<T>>, op: Op)
  {
    && DequeueBegun(s, actions, op) && Run(s, actions).cons.CIdle?
    && (forall k :: 0 < k < |actions| ==> !Run(s, actions[..k]).cons.CIdle?)
  }

  ghost predicate DequeueBegun<T>(s: State<T>, actions: seq<Action<T>>, op: Op)
  {
    s.cons.CIdle? && |actions| > 0 && actions[0].Consume? && actions[0].op == op
  }

  /** All elements enqueued at an instant between the first and the last step had been removed
      before the call. */
  ghost predicate SawEmpty<T>(s: State<T>, actions: seq<Action<T>>)
  {
    SawEnqueued(s, actions, |s.deq|)
  }

  ghost predicate SawEnqueued<T>(s: State<T>, actions: seq<Action<T>>, n: nat)
  {
    exists k :: 0 < k < |actions| && |Run(s, actions[..k]).enq| == n
  }

  /** What a step that ends a call returns: the element read, or nothing. */
  ghost function Returned<T>(s: State<T>): Option<T>
  {
    match s.cons
    case CFront(_, _, v) => Some(v)
    case CRead(_, n) =>
      if n < |s.blocks| && s.blocks[n].front < |s.blocks[n].data| && s.blocks[n].data[s.blocks[n].front].Val?
      then Some(s.blocks[n].data[s.blocks[n].front].v) else None
    case _ => None
  }

  /** A call that returns an element returns the oldest one, and removes it unless it is a peek.
      One that returns nothing was right about that at an instant of the call. */
  ghost predicate DequeueOutcome<T>(s: State<T>, actions: seq<Action<T>>, op: Op)
    requires |actions| > 0
  {
    var end, result := Run(s, actions), Returned(Run(s, actions[..|actions| - 1]));
    if result.Some? then
      && |s.deq| < |end.enq| && result.value == end.enq[|s.deq|]
      && end.deq == (if op.Peek? then s.deq else s.deq + [result.value])
    else end.deq == s.deq && SawEmpty(s, actions)
  }

  ghost predicate DequeueSoFar<T>(s: State<T>, actions: seq<Action<T>>, op: Op)
  {
    var r := Run(s, actions);
    && !r.cons.CIdle? && r.cons.op == op && r.deq == s.deq
    && (r.cons.CFront? ==> !op.Peek?)
    && (r.cons.CBlock? ==> SawEnqueued(s, actions, r.cons.seen))
  }

  lemma SawMore<T>(s: State<T>, actions: seq<Action<T>>)
    requires |actions| > 1
    ensures var before := actions[..|actions| - 1];
            && (forall n: nat :: SawEnqueued(s, before, n) ==> SawEnqueued(s, actions, n))
            && SawEnqueued(s, actions, |Run(s, before).enq|)
            && (forall n: nat :: SawQueued(s, before, n) ==> SawQueued(s, actions, n))
            && SawQueued(s, actions, Queued(Run(s, before)))
  {
    var n := |actions| - 1;
    forall k | 0 < k <= n ensures actions[..n][..k] == actions[..k] {}
  }

  /** A step of the consumer within a call. */
  lemma DequeueGoesOn<T>(s: State<T>, g: Ghost, op: Op, op0: Op)
    requires InvWith(s, g) && Sane(s) && !s.cons.CIdle? && s.cons.op == op && (s.cons.CFront? ==> !op.Peek?)
    ensures var s' := ConsumerStep(s, op0);
            && s'.enq == s.enq
            && if !s'.cons.CIdle? then
                 && s'.cons.op == op && s'.deq == s.deq && (s'.cons.CFront? ==> !op.Peek?)
                 && (s'.cons.CBlock? ==> s'.cons.seen == |s.enq|)
               else if Returned(s).Some? then
                 && |s.deq| < |s.enq| && Returned(s).value == s.enq[|s.deq|]
                 && s'.deq == (if op.Peek? then s.deq else s.deq + [Returned(s).value])
               else s'.deq == s.deq && s.cons.CBlock? && s.cons.seen == |s.deq|
  {
    if s.cons.CRead? { ReadsOldest(s, g); }
    if s.cons.CBlock? && s.cons.b == s.tailBlock { assert g.ring[0] == g.ring[g.k]; }
  }

  lemma ProducerApart<T>(s: State<T>, e: T, alloc: bool, available: bool)
    requires Sane(s) && s.largest > 0
    ensures var s' := ProducerStep(s, e, alloc, available); s'.cons == s.cons && s'.deq == s.deq && s.enq <= s'.enq
  {
  }

  lemma DequeueStep<T(!new)>(s: State<T>, actions: seq<Action<T>>, op: Op)
    requires Reachable(s) && |actions| > 1 && DequeueSoFar(s, actions[..|actions| - 1], op)
    ensures if Run(s, actions).cons.CIdle? then DequeueOutcome(s, actions, op) else DequeueSoFar(s, actions, op)
  {
    var n := |actions| - 1;
    var r := Run(s, actions[..n]);
    RunReachable(s, actions[..n]);
    SawMore(s, actions);
    match actions[n]
    case Produce(e, alloc, available) => ProducerApart(r, e, alloc, available);
    case Consume(op0) =>
      var g :| InvWith(r, g);
      DequeueGoesOn(r, g, op, op0);
  }

  lemma {:induction false} DequeueCall<T(!new)>(s: State<T>, actions: seq<Action<T>>, op: Op)
    requires Reachable(s) && DequeueBegun(s, actions, op)
    requires forall k :: 0 < k <= |actions| ==> !Run(s, actions[..k]).cons.CIdle?
    ensures DequeueSoFar(s, actions, op)
  {
    var n := |actions| - 1;
    assert actions[..|actions|] == actions;
    if n == 0 {
      assert Run(s, actions[..0]) == s;
      ReachableSane(s);
    } else {
      forall k | 0 < k <= n ensures actions[..n][..k] == actions[..k] {}
      DequeueCall(s, actions[..n], op);
      DequeueStep(s, actions, op);
    }
  }

  /** try_dequeue, pop and peek, in every run: a call that returns an element returns the oldest
      and removes it (peek leaves it); a call that returns nothing had all elements enqueued by
      an instant of the call removed already. */
  lemma DequeueReturns<T(!new)>(s: State<T>, actions: seq<Action<T>>, op: Op)
    requires Reachable(s) && IsDequeue(s, actions, op)
    ensures DequeueOutcome(s, actions, op)
  {
    var n := |actions| - 1;
    if n == 0 {
      assert Run(s, actions[..0]) == s;
      ReachableSane(s);
    } else {
      forall k | 0 < k <= n ensures actions[..n][..k] == actions[..k] {}
      DequeueCall(s, actions[..n], op);
      DequeueStep(s, actions, op);
    }
  }

  /** The producer's whole call, with steps of the consumer in between. */
  ghost predicate IsEnqueue<T>(s: State<T>, actions: seq<Action<T>>, e: T, alloc: bool)
  {
    && EnqueueBegun(s, actions, e, alloc) && Run(s, actions).prod.PIdle?
    && (forall k :: 0 < k < |actions| ==> !Run(s, actions[..k]).prod.PIdle?)
  }

  ghost predicate EnqueueBegun<T>(s: State<T>, actions: seq<Action<T>>, e: T, alloc: bool)
  {
    s.prod.PIdle? && |actions| > 0 && (exists available :: actions[0] == Produce(e, alloc, available))
  }

  /** There were n elements in the queue at an instant between the first and the last step. */
  ghost predicate SawQueued<T>(s: State<T>, actions: seq<Action<T>>, n: nat)
  {
    exists k :: 0 < k < |actions| && Queued(Run(s, actions[..k])) == n
  }

  ghost predicate SawFull<T>(s: State<T>, actions: seq<Action<T>>)
  {
    exists n: nat :: n >= s.maxSize && SawQueued(s, actions, n)
  }

  /** The element is added at the end; or nothing is, and then the queue was full at an instant
      of the call, and enqueue has been refused a block. */
  ghost predicate EnqueueOutcome<T>(s: State<T>, actions: seq<Action<T>>, e: T, alloc: bool)
    requires |actions| > 0
  {
    var end, last := Run(s, actions), actions[|actions| - 1];
    || end.enq == s.enq + [e]
    || (end.enq == s.enq && SawFull(s, actions) && (alloc ==> last.Produce? && !last.available))
  }

  ghost predicate EnqueueSoFar<T>(s: State<T>, actions: seq<Action<T>>, e: T, alloc: bool)
  {
    var r := Run(s, actions);
    && r.enq == s.enq && r.maxSize == s.maxSize
    && match r.prod
       case PIdle => false
       case PFront(x, a, _) => x == e && a == alloc
       case PFull(x, a, _, queued) => x == e && a == alloc && SawQueued(s, actions, queued)
       case PAlloc(x, _) => x == e && alloc && SawFull(s, actions)
       case _ => r.prod.e == e
  }

  /** A step of the producer within a call. */
  lemma EnqueueGoesOn<T>(s: State<T>, g: Ghost, e: T, alloc: bool, a: Action<T>)
    requires InvWith(s, g) && Sane(s) && s.largest > 0 && a.Produce? && !s.prod.PIdle? && s.prod.e == e
    requires (s.prod.PFront? || s.prod.PFull? ==> s.prod.alloc == alloc) && (s.prod.PAlloc? ==> alloc)
    ensures var s' := ProducerStep(s, a.e, a.alloc, a.available);
            && s'.maxSize == s.maxSize && s'.deq == s.deq
            && if s'.prod.PIdle? then
                 || s'.enq == s.enq + [e]
                 || (s'.enq == s.enq && s.prod.PAlloc? && !a.available)
                 || (s'.enq == s.enq && s.prod.PFull? && !alloc && (s.prod.queued >= s.maxSize || Queued(s) >= s.maxSize))
               else
                 && s'.enq == s.enq && s'.prod.e == e
                 && (s'.prod.PFront? ==> s.prod.PIdle?)
                 && (s'.prod.PFull? ==> s'.prod.alloc == alloc && s'.prod.queued == Queued(s))
                 && (s'.prod.PAlloc? ==> alloc && s.prod.PFull? && (s.prod.queued >= s.maxSize || Queued(s) >= s.maxSize))
  {
    if s.prod.PFull? && s.blocks[s.prod.b].next == s.frontBlock { FullRing(s, g); }
  }

  lemma ConsumerApart<T>(s: State<T>, op: Op)
    requires Sane(s)
    ensures var s' := ConsumerStep(s, op); s'.prod == s.prod && s'.enq == s.enq && s'.maxSize == s.maxSize
  {
  }

  lemma EnqueueStep<T(!new)>(s: State<T>, actions: seq<Action<T>>, e: T, alloc: bool)
    requires Reachable(s) && |actions| > 1 && EnqueueSoFar(s, actions[..|actions| - 1], e, alloc)
    ensures if Run(s, actions).prod.PIdle? then EnqueueOutcome(s, actions, e, alloc) else EnqueueSoFar(s, actions, e, alloc)
  {
    var n := |actions| - 1;
    var r := Run(s, actions[..n]);
    RunReachable(s, actions[..n]);
    SawMore(s, actions);
    match actions[n]
    case Produce(_, _, _) =>
      var g :| InvWith(r, g);
      EnqueueGoesOn(r, g, e, alloc, actions[n]);
    case Consume(op) => ConsumerApart(r, op);
  }

  lemma EnqueueFirst<T(!new)>(s: State<T>, actions: seq<Action<T>>, e: T, alloc: bool)
    requires Reachable(s) && EnqueueBegun(s, actions, e, alloc) && |actions| == 1
    ensures EnqueueSoFar(s, actions, e, alloc)
  {
    assert Run(s, actions[..0]) == s;
    ReachableSane(s);
  }

  lemma {:induction false} EnqueueCall<T(!new)>(s: State<T>, actions: seq<Action<T>>, e: T, alloc: bool)
    requires Reachable(s) && EnqueueBegun(s, actions, e, alloc)
    requires forall k :: 0 < k <= |actions| ==> !Run(s, actions[..k]).prod.PIdle?
    ensures EnqueueSoFar(s, actions, e, alloc)
  {
    var n := |actions| - 1;
    assert actions[..|actions|] == actions;
    if n == 0 {
      EnqueueFirst(s, actions, e, alloc);
    } else {
      forall k | 0 < k <= n ensures actions[..n][..k] == actions[..k] {}
      EnqueueCall(s, actions[..n], e, alloc);
      EnqueueStep(s, actions, e, alloc);
    }
  }

  /** try_enqueue and enqueue, in every run: a call adds its element at the end, or it adds
      nothing, and then at least maxSize elements were queued at an instant of the call; enqueue
      adds nothing only when it was refused a block on top of that. */
  lemma EnqueueReturns<T(!new)>(s: State<T>, actions: seq<Action<T>>, e: T, alloc: bool)
    requires Reachable(s) && IsEnqueue(s, actions, e, alloc)
    ensures EnqueueOutcome(s, actions, e, alloc)
  {
    var n := |actions| - 1;
    if n == 0 {
      EnqueueFirst(s, actions, e, alloc);
    } else {
      forall k | 0 < k <= n ensures actions[..n][..k] == actions[..k] {}
      EnqueueCall(s, actions[..n], e, alloc);
      EnqueueStep(s, actions, e, alloc);
    }
  }

  /** Steps that are left to a call, at most: no call of either side waits for the other. */
  function ProducerLeft<T>(p: Producer<T>): nat
  {
    match p
    case PIdle => 0
    case PFront(_, _, _) => 6
    case PWrite(_, _) => 2
    case PTail(_, _) => 1
    case PFull(_, _, _, _) => 5
    case PSpare(_, _) => 4
    case PSpareWrite(_, _) => 3
    case PSpareTail(_, _) => 2
    case PAlloc(_, _) => 3
    case PLink(_, _, _) => 2
    case PSwitch(_, _) => 1
  }

  function ConsumerLeft<T>(c: Consumer<T>): nat
  {
    match c
    case CIdle => 0
    case CTail(_, _) => 8
    case CBlock(_, _, _) => 7
    case CAgain(_, _) => 6
    case CNext(_, _) => 5
    case CNextTail(_, _, _) => 4
    case CSwitch(_, _) => 3
    case CRead(_, _) => 2
    case CFront(_, _, _) => 1
  }

  /** Wait freedom: whatever the other side does, each of a side's own steps within a call
      brings the end of the call nearer, which is at most seven steps away for the producer and
      nine for the consumer, the first included; the other side's steps do not put it off. */
  lemma WaitFree<T(!new)>(s: State<T>, a: Action<T>)
    requires Reachable(s)
    ensures var s' := Step(s, a);
            match a
            case Produce(_, _, _) =>
              && s'.cons == s.cons
              && (if s.prod.PIdle? then ProducerLeft(s'.prod) <= 6 else ProducerLeft(s'.prod) < ProducerLeft(s.prod))
            case Consume(_) =>
              && s'.prod == s.prod
              && (if s.cons.CIdle? then ConsumerLeft(s'.cons) <= 8 else ConsumerLeft(s'.cons) < ConsumerLeft(s.cons))
  {
    ReachableSane(s);
    match a
    case Produce(e, alloc, available) => ProducerNearer(s, e, alloc, available);
    case Consume(op) => ConsumerNearer(s, op);
  }

  lemma ProducerNearer<T>(s: State<T>, e: T, alloc: bool, available: bool)
    requires Sane(s) && s.largest > 0
    ensures var s' := ProducerStep(s, e, alloc, available);
            s'.cons == s.cons && if s.prod.PIdle? then ProducerLeft(s'.prod) <= 6 else ProducerLeft(s'.prod) < ProducerLeft(s.prod)
  {
  }

  lemma ConsumerNearer<T>(s: State<T>, op: Op)
    requires Sane(s)
    ensures var s' := ConsumerStep(s, op);
            s'.prod == s.prod && if s.cons.CIdle? then ConsumerLeft(s'.cons) <= 8 else ConsumerLeft(s'.cons) < ConsumerLeft(s.cons)
  {
  }
}
