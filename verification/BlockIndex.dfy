/** The circular block index of an implicit producer. Each header maps slots to shared
    entries; when the index is full a header of twice the capacity is published, re-based
    so that its first slots hold the old entries in order, followed by fresh ones. Readers
    may still hold an old header. Block numbers stand for block base indices: the base of
    block b is b * BLOCK_SIZE. */
module BlockIndex {
  import opened Options
  import opened Slots

  /** key None is INVALID_BLOCK_BASE, value None is the null pointer. */
  datatype Entry = Entry(key: Option<nat>, value: Option<nat>)

  datatype Header = Header(index: seq<nat>, tail: nat)

  /** All entries and headers ever made; the last header is the published one. */
  datatype Index = Index(entries: seq<Entry>, headers: seq<Header>)

  predicate HeaderOk(h: Header, entries: nat)
  {
    |h.index| > 0 && h.tail < |h.index| && forall j :: 0 <= j < |h.index| ==> h.index[j] < entries
  }

  predicate IndexOk(ix: Index)
  {
    |ix.headers| > 0 && forall h :: 0 <= h < |ix.headers| ==> HeaderOk(ix.headers[h], |ix.entries|)
  }

  function Cur(ix: Index): (h: Header)
    requires IndexOk(ix)
    ensures HeaderOk(h, |ix.entries|)
  {
    ix.headers[|ix.headers| - 1]
  }

  function SetKey(ix: Index, e: nat, b: nat): Index
    requires e < |ix.entries|
  {
    ix.(entries := ix.entries[e := ix.entries[e].(key := Some(b))])
  }

  function SetValue(ix: Index, e: nat, v: Option<nat>): Index
    requires e < |ix.entries|
  {
    ix.(entries := ix.entries[e := ix.entries[e].(value := v)])
  }

  function SetTail(ix: Index, t: nat): Index
    requires IndexOk(ix)
  {
    ix.(headers := ix.headers[|ix.headers| - 1 := Cur(ix).(tail := t)])
  }

  /** The entry after the tail, where the next block goes. */
  function Candidate(ix: Index): (e: nat)
    requires IndexOk(ix)
    ensures e < |ix.entries|
  {
    Cur(ix).index[Next(|Cur(ix).index|, Cur(ix).tail)]
  }

  /** rewind_block_index_tail. */
  function StepBack(ix: Index): Index
    requires IndexOk(ix)
  {
    SetTail(ix, Prev(|Cur(ix).index|, Cur(ix).tail))
  }

  // ---------------------------------------------------------------------------
  // new_block_index

  /** The header that replaces `prev`, with fresh entries numbered from `first`. */
  function Grown(prev: Header, first: nat): Header
    requires HeaderOk(prev, first)
  {
    var cap := |prev.index|;
    Header(seq(2 * cap, i requires 0 <= i < 2 * cap => GrownAt(prev, first, i)), cap - 1)
  }

  function GrownAt(prev: Header, first: nat, i: nat): nat
    requires HeaderOk(prev, first) && i < 2 * |prev.index|
  {
    var cap := |prev.index|;
    if i < cap then (WalkBound(cap, prev.tail, 1 + i); prev.index[Walk(cap, prev.tail, 1 + i)]) else first + (i - cap)
  }

  /** Publishing the new header; what memory the values of fresh entries hold is arbitrary. */
  function Grow(ix: Index, junk: seq<Option<nat>>): Index
    requires IndexOk(ix) && |junk| == |Cur(ix).index|
  {
    Index(ix.entries + seq(|junk|, i requires 0 <= i < |junk| => Entry(None, junk[i])),
          ix.headers + [Grown(Cur(ix), |ix.entries|)])
  }

  /** The copying loops of new_block_index: the old slots from the one after the tail round
      to the tail, then the fresh entries. */
  method NewBlockIndex(prev: Header, first: nat) returns (index: array<nat>, tail: nat)
    requires HeaderOk(prev, first)
    ensures Header(index[..], tail) == Grown(prev, first)
  {
    var cap := |prev.index|;
    index := new nat[2 * cap];
    var pos := Next(cap, prev.tail);
    index[0] := prev.index[pos];
    var i := 1;
    while pos != prev.tail
      invariant 1 <= i <= cap && pos == Walk(cap, prev.tail, i) && pos < cap
      invariant forall k :: 0 <= k < i ==> index[k] == GrownAt(prev, first, k)
      decreases cap - i
    {
      if i == cap { WalkNear(cap, prev.tail, cap); }
      pos := Next(cap, pos);
      index[i] := prev.index[pos];
      i := i + 1;
    }
    WalkNear(cap, prev.tail, i);
    var n := 0;
    while n != cap
      invariant 0 <= n <= cap
      invariant forall k :: 0 <= k < cap + n ==> index[k] == GrownAt(prev, first, k)
    {
      index[cap + n] := first + n;
      n := n + 1;
    }
    tail := cap - 1;
  }

  // ---------------------------------------------------------------------------
  // Where a block has its slot

  /** The slot of block `b` in a header: `shift` is that of block 0. */
  function SlotOf(h: Header, shift: nat, b: int): nat { Walk(|h.index|, shift, b) }

  ghost predicate KeyOk(key: Option<nat>, h: Header, shift: nat, j: nat)
  {
    key.Some? ==> SlotOf(h, shift, key.value) == j
  }

  /** Every key in a slot, even a stale one, is the number of a block with that slot. */
  ghost predicate KeysOk(entries: seq<Entry>, h: Header, shift: nat)
    requires HeaderOk(h, |entries|)
  {
    forall j :: 0 <= j < |h.index| ==> KeyOk(entries[h.index[j]].key, h, shift, j)
  }

  /** Any block with slot `j'` in the newer header has slot `j` in the older one. */
  ghost predicate SlotsAgree(cap: nat, shift: nat, j: nat, cap': nat, shift': nat, j': nat)
  {
    forall b: nat :: Walk(cap', shift', b) == j' ==> Walk(cap, shift, b) == j
  }

  /** Entries that two headers share are at slots that agree. */
  ghost predicate Aligned(older: Header, shift: nat, newer: Header, shift': nat)
  {
    forall j, j' :: 0 <= j < |older.index| && 0 <= j' < |newer.index| && older.index[j] == newer.index[j'] ==>
      SlotsAgree(|older.index|, shift, j, |newer.index|, shift', j')
  }

  ghost predicate Slotted(ix: Index, shift: seq<nat>)
  {
    && IndexOk(ix) && |shift| == |ix.headers|
    && (forall h :: 0 <= h < |shift| ==> shift[h] < |ix.headers[h].index|)
    && (forall h :: 0 <= h < |shift| ==> KeysOk(ix.entries, ix.headers[h], shift[h]))
    && (forall h :: 0 <= h < |shift| ==> Aligned(ix.headers[h], shift[h], Cur(ix), shift[|shift| - 1]))
  }

  /** The entry of block `b` according to header `h`. */
  function EntryIn(ix: Index, shift: seq<nat>, h: nat, b: int): (e: nat)
    requires IndexOk(ix) && h < |ix.headers| == |shift| && shift[h] < |ix.headers[h].index|
    ensures e < |ix.entries|
  {
    WalkBound(|ix.headers[h].index|, shift[h], b);
    assert HeaderOk(ix.headers[h], |ix.entries|);
    ix.headers[h].index[SlotOf(ix.headers[h], shift[h], b)]
  }

  /** The entry of block `b` according to the published header. */
  function EntryNow(ix: Index, shift: seq<nat>, b: int): (e: nat)
    requires IndexOk(ix) && |ix.headers| == |shift| && shift[|shift| - 1] < |Cur(ix).index|
    ensures e < |ix.entries|
  {
    EntryIn(ix, shift, |shift| - 1, b)
  }

  function SlotNow(ix: Index, shift: seq<nat>, b: int): nat
    requires IndexOk(ix) && |ix.headers| == |shift|
  {
    SlotOf(Cur(ix), shift[|shift| - 1], b)
  }

  // ---------------------------------------------------------------------------
  // Lookup

  /** get_block_index_entry_for_index, all loads at once, on header `h` and for block `b`. */
  function Lookup(ix: Index, h: nat, b: nat): Option<Entry>
    requires IndexOk(ix) && h < |ix.headers|
  {
    assert HeaderOk(ix.headers[h], |ix.entries|);
    var x := ix.headers[h];
    var key := ix.entries[x.index[x.tail]].key;
    if key.None? then None
    else (WalkBound(|x.index|, x.tail, b - key.value); Some(ix.entries[x.index[Walk(|x.index|, x.tail, b - key.value)]]))
  }

  /** get_block_index_index_for_index: from the tail slot and the key read there, whatever
      header it is, however old the tail and whichever block's key, the slot of `b`. */
  lemma LookupFindsSlot(ix: Index, shift: seq<nat>, h: nat, t: nat, b: nat)
    requires Slotted(ix, shift) && h < |shift| && t < |ix.headers[h].index|
    requires ix.entries[ix.headers[h].index[t]].key.Some?
    ensures var k := ix.entries[ix.headers[h].index[t]].key.value;
            Walk(|ix.headers[h].index|, t, b - k) == SlotOf(ix.headers[h], shift[h], b)
  {
    var k := ix.entries[ix.headers[h].index[t]].key.value;
    assert KeysOk(ix.entries, ix.headers[h], shift[h]);
    assert KeyOk(ix.entries[ix.headers[h].index[t]].key, ix.headers[h], shift[h], t);
    WalkAdd(|ix.headers[h].index|, shift[h], k, b - k);
  }

  // ---------------------------------------------------------------------------
  // Changes of the index keep the slots in order

  /** Storing the number of a block in the entry of its slot. */
  lemma SetKeySlotted(ix: Index, shift: seq<nat>, b: nat)
    requires Slotted(ix, shift)
    ensures Slotted(SetKey(ix, EntryNow(ix, shift, b), b), shift)
  {
    var e := EntryNow(ix, shift, b);
    var ix' := SetKey(ix, e, b);
    var n := |shift| - 1;
    WalkBound(|Cur(ix).index|, shift[n], b);
    forall h | 0 <= h < |shift| ensures KeysOk(ix'.entries, ix'.headers[h], shift[h]) {
      assert KeysOk(ix.entries, ix.headers[h], shift[h]) && HeaderOk(ix.headers[h], |ix.entries|);
      forall j | 0 <= j < |ix.headers[h].index|
        ensures KeyOk(ix'.entries[ix.headers[h].index[j]].key, ix.headers[h], shift[h], j)
      {
        assert KeyOk(ix.entries[ix.headers[h].index[j]].key, ix.headers[h], shift[h], j);
        if ix.headers[h].index[j] == e {
          assert Aligned(ix.headers[h], shift[h], Cur(ix), shift[n]);
          assert SlotsAgree(|ix.headers[h].index|, shift[h], j, |Cur(ix).index|, shift[n], SlotNow(ix, shift, b));
        }
      }
    }
    forall h | 0 <= h < |shift| ensures HeaderOk(ix'.headers[h], |ix'.entries|) {
      assert HeaderOk(ix.headers[h], |ix.entries|);
    }
  }

  lemma SetValueSlotted(ix: Index, shift: seq<nat>, e: nat, v: Option<nat>)
    requires Slotted(ix, shift) && e < |ix.entries|
    ensures Slotted(SetValue(ix, e, v), shift)
  {
    var ix' := SetValue(ix, e, v);
    forall h | 0 <= h < |shift| ensures HeaderOk(ix'.headers[h], |ix'.entries|) && KeysOk(ix'.entries, ix'.headers[h], shift[h]) {
      assert HeaderOk(ix.headers[h], |ix.entries|) && KeysOk(ix.entries, ix.headers[h], shift[h]);
      forall j | 0 <= j < |ix.headers[h].index|
        ensures KeyOk(ix'.entries[ix.headers[h].index[j]].key, ix.headers[h], shift[h], j)
      {
        assert KeyOk(ix.entries[ix.headers[h].index[j]].key, ix.headers[h], shift[h], j);
      }
    }
  }

  lemma SameSlots(h: Header, h': Header, entries: seq<Entry>, shift: nat)
    requires h.index == h'.index && HeaderOk(h, |entries|) && HeaderOk(h', |entries|) && KeysOk(entries, h, shift)
    ensures KeysOk(entries, h', shift)
  {
    forall j | 0 <= j < |h.index| ensures KeyOk(entries[h.index[j]].key, h', shift, j) {
      assert KeyOk(entries[h.index[j]].key, h, shift, j);
    }
  }

  lemma SameAligned(h: Header, shift: nat, n: Header, shift': nat, h': Header, n': Header)
    requires Aligned(h, shift, n, shift') && h'.index == h.index && n'.index == n.index
    ensures Aligned(h', shift, n', shift')
  {
    forall j, j' | 0 <= j < |h.index| && 0 <= j' < |n.index| && h.index[j] == n.index[j']
      ensures SlotsAgree(|h'.index|, shift, j, |n'.index|, shift', j')
    {
      assert SlotsAgree(|h.index|, shift, j, |n.index|, shift', j');
    }
  }

  lemma SetTailSlotted(ix: Index, shift: seq<nat>, t: nat)
    requires Slotted(ix, shift) && t < |Cur(ix).index|
    ensures Slotted(SetTail(ix, t), shift)
  {
    var ix', n := SetTail(ix, t), |shift| - 1;
    forall h | 0 <= h <= n ensures HeaderOk(ix'.headers[h], |ix.entries|) && KeysOk(ix.entries, ix'.headers[h], shift[h]) {
      assert HeaderOk(ix.headers[h], |ix.entries|) && KeysOk(ix.entries, ix.headers[h], shift[h]);
      SameSlots(ix.headers[h], ix'.headers[h], ix.entries, shift[h]);
    }
    forall h | 0 <= h <= n ensures Aligned(ix'.headers[h], shift[h], Cur(ix'), shift[n]) {
      SameAligned(ix.headers[h], shift[h], Cur(ix), shift[n], ix'.headers[h], Cur(ix'));
    }
  }

  // ---------------------------------------------------------------------------
  // Growth

  /** The shift of a header that replaces one whose tail is block `next - 1`: block `next`
      gets the first fresh slot. */
  function GrownShift(cap: nat, next: nat): nat { Walk(2 * cap, cap, 0 - next) }

  /** A block whose slot in the new header is `i` below the old capacity had the old slot
      that was copied there. */
  lemma GrownSlot(cap: nat, shift: nat, next: nat, tail: nat, b: int, i: nat)
    requires shift < cap && tail == Walk(cap, shift, next - 1)
    requires Walk(2 * cap, GrownShift(cap, next), b) == i < cap
    ensures Walk(cap, tail, 1 + i) == Walk(cap, shift, b)
  {
    var f := Fold(cap, GrownShift(cap, next));
    WalkBound(2 * cap, cap, 0 - next);
    WalkFold(cap, GrownShift(cap, next), b);
    WalkFold(cap, GrownShift(cap, next), next);
    WalkAdd(2 * cap, cap, 0 - next, next);
    WalkAdd(cap, f, next, b - next);
    assert i == Walk(cap, 0, b - next);
    WalkBound(cap, shift, next - 1);
    WalkBound(cap, tail, 1);
    WalkPosition(cap, Walk(cap, tail, 1), b - next);
    WalkAdd(cap, tail, 1, b - next);
    WalkAdd(cap, tail, 1, i);
    WalkAdd(cap, shift, next - 1, b - next + 1);
  }

  /** The last `cap` blocks have the first slots of the new header, in order. */
  lemma GrownWindow(cap: nat, next: nat, b: int)
    requires cap > 0 && next - cap <= b < next
    ensures Walk(2 * cap, GrownShift(cap, next), b) == b - next + cap
  {
    WalkBound(2 * cap, cap, 0 - next);
    WalkAdd(2 * cap, cap, 0 - next, b);
    WalkAdd(2 * cap, cap, 0 - cap, b - next + cap);
    WalkAdd(2 * cap, 0, cap, 0 - cap);
    WalkNear(2 * cap, 0, cap);
    WalkNear(2 * cap, 0, b - next + cap);
  }

  lemma GrownNext(cap: nat, next: nat)
    requires cap > 0
    ensures GrownShift(cap, next) < 2 * cap
    ensures Walk(2 * cap, GrownShift(cap, next), next) == cap
    ensures Walk(2 * cap, GrownShift(cap, next), next - 1) == cap - 1
  {
    WalkBound(2 * cap, cap, 0 - next);
    WalkAdd(2 * cap, cap, 0 - next, next);
    WalkStep(2 * cap, GrownShift(cap, next), next - 1);
  }

  /** All keys of the header belong to the last blocks before `next`, one per slot. */
  ghost predicate KeysWithin(entries: seq<Entry>, h: Header, next: nat)
    requires HeaderOk(h, |entries|)
  {
    forall j :: 0 <= j < |h.index| ==> KeyWithin(entries[h.index[j]].key, next - |h.index|, next)
  }

  predicate KeyWithin(key: Option<nat>, low: int, high: int) { key.Some? ==> low <= key.value < high }

  /** Storing the key of the next block drops the one a whole turn before it. */
  lemma SetKeyWithin(ix: Index, shift: seq<nat>, b: nat, high: nat)
    requires Slotted(ix, shift) && KeysWithin(ix.entries, Cur(ix), high) && high - |Cur(ix).index| <= b <= high
    ensures KeysWithin(SetKey(ix, EntryNow(ix, shift, b), b).entries, Cur(ix), if b == high then high + 1 else high)
  {
    var e, h, cap, sh := EntryNow(ix, shift, b), Cur(ix), |Cur(ix).index|, shift[|shift| - 1];
    var entries' := SetKey(ix, e, b).entries;
    assert KeysOk(ix.entries, h, sh);
    forall j | 0 <= j < cap ensures KeyWithin(entries'[h.index[j]].key, (if b == high then high + 1 else high) - cap, if b == high then high + 1 else high) {
      var key := ix.entries[h.index[j]].key;
      assert KeyWithin(key, high - cap, high) && KeyOk(key, h, sh, j);
      if b == high && key.Some? && key.value == high - cap {
        WalkTurn(cap, sh, key.value);
        assert h.index[j] == e;
      }
    }
  }

  lemma GrownOk(h: Header, first: nat)
    requires HeaderOk(h, first)
    ensures HeaderOk(Grown(h, first), first + |h.index|)
  {
    forall i | 0 <= i < 2 * |h.index| ensures GrownAt(h, first, i) < first + |h.index| {
      WalkBound(|h.index|, h.tail, 1 + i);
    }
  }

  /** The key of a copied slot has the copy as its slot. */
  lemma GrownKey(ix: Index, shift: seq<nat>, next: nat, i: nat)
    requires Slotted(ix, shift) && i < |Cur(ix).index| && Cur(ix).tail == SlotNow(ix, shift, next - 1)
    requires KeysWithin(ix.entries, Cur(ix), next)
    ensures var h' := Grown(Cur(ix), |ix.entries|);
            && h'.index[i] < |ix.entries|
            && KeyOk(ix.entries[h'.index[i]].key, h', GrownShift(|Cur(ix).index|, next), i)
            && KeyWithin(ix.entries[h'.index[i]].key, next - |Cur(ix).index|, next)
  {
    var h, cap, sh := Cur(ix), |Cur(ix).index|, shift[|shift| - 1];
    var j := Walk(cap, h.tail, 1 + i);
    WalkBound(cap, h.tail, 1 + i);
    assert Grown(h, |ix.entries|).index[i] == h.index[j];
    var key := ix.entries[h.index[j]].key;
    assert KeysOk(ix.entries, h, sh) && KeyOk(key, h, sh, j) && KeyWithin(key, next - cap, next);
    if key.Some? {
      var i' := key.value - next + cap;
      GrownWindow(cap, next, key.value);
      GrownSlot(cap, sh, next, h.tail, key.value, i');
      if i < i' { WalkInjective(cap, h.tail, 1 + i, 1 + i'); }
      if i' < i { WalkInjective(cap, h.tail, 1 + i', 1 + i); }
    }
  }

  lemma GrownKeys(ix: Index, shift: seq<nat>, junk: seq<Option<nat>>, next: nat)
    requires Slotted(ix, shift) && |junk| == |Cur(ix).index| && Cur(ix).tail == SlotNow(ix, shift, next - 1)
    requires KeysWithin(ix.entries, Cur(ix), next)
    ensures IndexOk(Grow(ix, junk))
    ensures KeysOk(Grow(ix, junk).entries, Cur(Grow(ix, junk)), GrownShift(|junk|, next))
    ensures KeysWithin(Grow(ix, junk).entries, Cur(Grow(ix, junk)), next)
  {
    var ix', cap := Grow(ix, junk), |junk|;
    var h' := Grown(Cur(ix), |ix.entries|);
    GrownOk(Cur(ix), |ix.entries|);
    forall j | 0 <= j < |shift| ensures HeaderOk(ix'.headers[j], |ix'.entries|) { assert HeaderOk(ix.headers[j], |ix.entries|); }
    forall i | 0 <= i < |h'.index|
      ensures KeyOk(ix'.entries[h'.index[i]].key, h', GrownShift(cap, next), i)
      ensures KeyWithin(ix'.entries[h'.index[i]].key, next - 2 * cap, next)
    {
      if i < cap { GrownKey(ix, shift, next, i); }
    }
  }

  /** Entries of the new header that an older one has too were copied from the one it
      replaces, at slots that agree. */
  lemma GrownAligned(ix: Index, shift: seq<nat>, next: nat, h: nat)
    requires Slotted(ix, shift) && Cur(ix).tail == SlotNow(ix, shift, next - 1) && h < |shift|
    ensures Aligned(ix.headers[h], shift[h], Grown(Cur(ix), |ix.entries|), GrownShift(|Cur(ix).index|, next))
  {
    var p, cap, n := Cur(ix), |Cur(ix).index|, |shift| - 1;
    var g, sg := Grown(p, |ix.entries|), GrownShift(cap, next);
    assert Aligned(ix.headers[h], shift[h], p, shift[n]) && HeaderOk(ix.headers[h], |ix.entries|);
    forall j, i | 0 <= j < |ix.headers[h].index| && 0 <= i < |g.index| && ix.headers[h].index[j] == g.index[i]
      ensures SlotsAgree(|ix.headers[h].index|, shift[h], j, |g.index|, sg, i)
    {
      assert ix.headers[h].index[j] < |ix.entries|;
      assert i < cap;
      var j' := Walk(cap, p.tail, 1 + i);
      WalkBound(cap, p.tail, 1 + i);
      assert p.index[j'] == g.index[i];
      assert SlotsAgree(|ix.headers[h].index|, shift[h], j, cap, shift[n], j');
      forall b: nat | Walk(2 * cap, sg, b) == i ensures Walk(|ix.headers[h].index|, shift[h], b) == j {
        GrownSlot(cap, shift[n], next, p.tail, b, i);
      }
    }
  }

  /** No entry occurs twice in the new header. */
  lemma GrownSelf(ix: Index, shift: seq<nat>, next: nat)
    requires Slotted(ix, shift) && Cur(ix).tail == SlotNow(ix, shift, next - 1)
    ensures var g, sg := Grown(Cur(ix), |ix.entries|), GrownShift(|Cur(ix).index|, next);
            Aligned(g, sg, g, sg)
  {
    var p, cap := Cur(ix), |Cur(ix).index|;
    var g, sg := Grown(p, |ix.entries|), GrownShift(cap, next);
    forall j, i | 0 <= j < |g.index| && 0 <= i < |g.index| && g.index[j] == g.index[i]
      ensures SlotsAgree(|g.index|, sg, j, |g.index|, sg, i)
    {
      WalkBound(cap, p.tail, 1 + i);
      WalkBound(cap, p.tail, 1 + j);
      if i < cap && j < cap {
        OldDistinct(ix, shift, Walk(cap, p.tail, 1 + j), Walk(cap, p.tail, 1 + i), next, i, j);
      }
    }
  }

  lemma OldDistinct(ix: Index, shift: seq<nat>, a: nat, b: nat, next: nat, i: nat, j: nat)
    requires Slotted(ix, shift) && Cur(ix).tail == SlotNow(ix, shift, next - 1)
    requires i < |Cur(ix).index| && j < |Cur(ix).index|
    requires a == Walk(|Cur(ix).index|, Cur(ix).tail, 1 + j) && b == Walk(|Cur(ix).index|, Cur(ix).tail, 1 + i)
    requires a < |Cur(ix).index| && b < |Cur(ix).index| && Cur(ix).index[a] == Cur(ix).index[b]
    ensures i == j
  {
    var p, cap, n := Cur(ix), |Cur(ix).index|, |shift| - 1;
    assert Aligned(p, shift[n], p, shift[n]);
    assert SlotsAgree(cap, shift[n], a, cap, shift[n], b);
    WalkAdd(cap, shift[n], next - 1, 1 + i);
    assert Walk(cap, shift[n], next + i) == b;
    assert a == b;
    if i < j { WalkInjective(cap, p.tail, 1 + i, 1 + j); }
    if j < i { WalkInjective(cap, p.tail, 1 + j, 1 + i); }
  }

  /** Growing keeps the slots in order. */
  lemma GrowSlotted(ix: Index, shift: seq<nat>, junk: seq<Option<nat>>, next: nat)
    requires Slotted(ix, shift) && |junk| == |Cur(ix).index| && Cur(ix).tail == SlotNow(ix, shift, next - 1)
    requires KeysWithin(ix.entries, Cur(ix), next)
    ensures Slotted(Grow(ix, junk), shift + [GrownShift(|junk|, next)])
    ensures KeysWithin(Grow(ix, junk).entries, Cur(Grow(ix, junk)), next)
  {
    var ix', cap := Grow(ix, junk), |junk|;
    var shift' := shift + [GrownShift(cap, next)];
    GrownKeys(ix, shift, junk, next);
    GrownNext(cap, next);
    GrownSelf(ix, shift, next);
    forall h | 0 <= h < |shift'| ensures KeysOk(ix'.entries, ix'.headers[h], shift'[h]) {
      if h < |shift| {
        assert KeysOk(ix.entries, ix.headers[h], shift[h]) && HeaderOk(ix.headers[h], |ix.entries|);
        forall j | 0 <= j < |ix.headers[h].index|
          ensures KeyOk(ix'.entries[ix.headers[h].index[j]].key, ix.headers[h], shift[h], j)
        {
          assert KeyOk(ix.entries[ix.headers[h].index[j]].key, ix.headers[h], shift[h], j);
        }
      }
    }
    forall h | 0 <= h < |shift'| ensures Aligned(ix'.headers[h], shift'[h], Cur(ix'), shift'[|shift|]) {
      if h < |shift| { GrownAligned(ix, shift, next, h); }
    }
  }

  /** The last blocks before `next` keep their entries, and the candidate for `next` is a
      fresh entry, as the code asserts. */
  lemma GrowKeepsEntries(ix: Index, shift: seq<nat>, junk: seq<Option<nat>>, next: nat)
    requires Slotted(ix, shift) && |junk| == |Cur(ix).index| && Cur(ix).tail == SlotNow(ix, shift, next - 1)
    requires KeysWithin(ix.entries, Cur(ix), next)
    ensures var ix', shift' := Grow(ix, junk), shift + [GrownShift(|junk|, next)];
            && Slotted(ix', shift')
            && Cur(ix').tail == SlotNow(ix', shift', next - 1)
            && Candidate(ix') == EntryNow(ix', shift', next) && ix'.entries[Candidate(ix')].key.None?
            && (forall b :: next - |junk| <= b < next ==> EntryNow(ix', shift', b) == EntryNow(ix, shift, b))
  {
    var ix', cap := Grow(ix, junk), |junk|;
    var shift' := shift + [GrownShift(cap, next)];
    GrowSlotted(ix, shift, junk, next);
    GrownNext(cap, next);
    forall b | next - cap <= b < next ensures EntryNow(ix', shift', b) == EntryNow(ix, shift, b) {
      GrownWindow(cap, next, b);
      GrownSlot(cap, shift[|shift| - 1], next, Cur(ix).tail, b, b - next + cap);
      WalkBound(cap, Cur(ix).tail, 1 + (b - next + cap));
    }
  }
}
