/** The block index as the producer works on it: an object whose fields it changes in place. */
module CircularIndex {
  import opened Options
  import opened Slots
  import opened BlockIndex

  /** The index after storing the key of block b in the candidate entry and moving the tail. */
  function WithKey(ix: Index, b: nat): Index
    requires IndexOk(ix)
  {
    var ix' := SetKey(ix, Candidate(ix), b);
    SetKeyOk(ix, Candidate(ix), b);
    SetTail(ix', Next(|Cur(ix).index|, Cur(ix).tail))
  }

  lemma SetKeyOk(ix: Index, e: nat, b: nat)
    requires IndexOk(ix) && e < |ix.entries|
    ensures IndexOk(SetKey(ix, e, b)) && Cur(SetKey(ix, e, b)) == Cur(ix)
  {
    forall h | 0 <= h < |ix.headers| ensures HeaderOk(SetKey(ix, e, b).headers[h], |ix.entries|) {
      assert HeaderOk(ix.headers[h], |ix.entries|);
    }
  }

  /** The fields after the two stores make up the index with the key. */
  lemma InsertedAs(ix: Index, older: seq<Header>, index: seq<nat>, b: nat, entries: seq<Entry>, tail: nat)
    requires IndexOk(ix) && ix.headers == older + [Header(index, Cur(ix).tail)]
    requires tail == Next(|index|, Cur(ix).tail) && entries == SetKey(ix, Candidate(ix), b).entries
    ensures HeaderOk(Header(index, tail), |entries|) && (forall h :: 0 <= h < |older| ==> HeaderOk(older[h], |entries|))
    ensures Index(entries, older + [Header(index, tail)]) == WithKey(ix, b)
  {
    SetKeyOk(ix, Candidate(ix), b);
    forall h | 0 <= h < |older| ensures HeaderOk(older[h], |entries|) { assert HeaderOk(ix.headers[h], |ix.entries|); }
    assert Cur(ix) == Header(index, Cur(ix).tail);
    assert WithKey(ix, b).headers == older + [Header(index, tail)];
  }

  predicate IsFree(x: Entry) { x.key.None? || x.value.None? }

  /** Stepping the tail back after an insertion leaves every header as it was; the entry
      keeps the number of the block that was not inserted. */
  lemma RewindUndoesInsert(ix: Index, b: nat)
    requires IndexOk(ix)
    ensures IndexOk(WithKey(ix, b))
    ensures StepBack(WithKey(ix, b)) == SetKey(ix, Candidate(ix), b)
  {
    var e, n := Candidate(ix), |ix.headers| - 1;
    SetKeyOk(ix, e, b);
    var ix' := WithKey(ix, b);
    forall h | 0 <= h < |ix'.headers| ensures HeaderOk(ix'.headers[h], |ix'.entries|) {
      assert HeaderOk(ix.headers[h], |ix.entries|);
    }
    assert Cur(ix').index == Cur(ix).index;
    assert Prev(|Cur(ix).index|, Next(|Cur(ix).index|, Cur(ix).tail)) == Cur(ix).tail;
    assert StepBack(ix').headers[n] == ix.headers[n];
    assert StepBack(ix').headers == ix.headers;
  }

  class ProducerIndex {
    var entries: seq<Entry>
    var index: array<nat>
    var tail: nat
    /** Headers that have been replaced, which readers may still hold. */
    ghost var older: seq<Header>

    ghost predicate Valid()
      reads this, index
    {
      && HeaderOk(Header(index[..], tail), |entries|)
      && (forall h :: 0 <= h < |older| ==> HeaderOk(older[h], |entries|))
    }

    ghost function Abs(): (ix: Index)
      requires Valid()
      reads this, index
      ensures IndexOk(ix) && Cur(ix) == Header(index[..], tail) && ix.entries == entries
    {
      Index(entries, older + [Header(index[..], tail)])
    }

    /** The first index: fresh entries in order, the tail before the first slot. */
    constructor (capacity: nat, junk: seq<Option<nat>>)
      requires capacity > 0 && |junk| == capacity
      ensures Valid() && fresh(index) && older == []
      ensures entries == seq(capacity, i requires 0 <= i < capacity => Entry(None, junk[i]))
      ensures index[..] == seq(capacity, i => i) && tail == capacity - 1
    {
      entries := seq(capacity, i requires 0 <= i < capacity => Entry(None, junk[i]));
      index := new nat[capacity](i => i);
      tail := capacity - 1;
      older := [];
      new;
      assert forall i :: 0 <= i < |index[..]| ==> index[..][i] == i;
    }

    /** new_block_index; `memory` says whether the allocation succeeds. */
    method NewIndex(memory: bool, junk: seq<Option<nat>>) returns (ok: bool)
      requires Valid() && |junk| == index.Length
      modifies this
      ensures Valid() && ok == memory && unchanged(old(index))
      ensures ok ==> Abs() == Grow(old(Abs()), junk)
      ensures !ok ==> unchanged(this)
    {
      ok := memory;
      if !ok { return; }
      ghost var prev := Header(index[..], tail);
      var first := |entries|;
      var index', tail' := NewBlockIndex(Header(index[..], tail), first);
      GrownOk(prev, first);
      older := older + [prev];
      entries := entries + seq(|junk|, i requires 0 <= i < |junk| => Entry(None, junk[i]));
      index, tail := index', tail';
      assert Abs().headers == old(Abs()).headers + [Grown(prev, first)];
    }

    /** insert_block_index_entry: the entry for block b, growing the index if the slot after
        the tail is in use and that is allowed and possible. */
    method Insert(b: nat, memory: bool, junk: seq<Option<nat>>) returns (e: Option<nat>)
      requires Valid() && |junk| == index.Length
      modifies this
      ensures Valid()
      ensures var ix := old(Abs());
              if IsFree(ix.entries[Candidate(ix)]) then e == Some(Candidate(ix)) && Abs() == WithKey(ix, b)
              else if memory then
                IndexOk(Grow(ix, junk)) && e == Some(Candidate(Grow(ix, junk))) && Abs() == WithKey(Grow(ix, junk), b)
              else e == None && Abs() == ix
    {
      var next := if tail + 1 < index.Length then tail + 1 else 0;
      var entry := index[next];
      if !IsFree(entries[entry]) {
        var ok := NewIndex(memory, junk);
        if !ok { return None; }
        next := if tail + 1 < index.Length then tail + 1 else 0;
        entry := index[next];
      }
      ghost var mid := Abs();
      entries := entries[entry := entries[entry].(key := Some(b))];
      tail := next;
      e := Some(entry);
      InsertedAs(mid, older, index[..], b, entries, tail);
    }

    /** rewind_block_index_tail. */
    method Rewind()
      requires Valid()
      modifies this`tail
      ensures Valid() && Abs() == StepBack(old(Abs()))
    {
      tail := if tail > 0 then tail - 1 else index.Length - 1;
      assert Abs().headers == StepBack(old(Abs())).headers;
    }

    /** get_block_index_entry_for_index for block b. */
    method EntryFor(b: nat) returns (e: nat)
      requires Valid() && entries[index[tail]].key.Some?
      ensures e < |entries|
      ensures forall shift: seq<nat> :: Slotted(Abs(), shift) ==> e == EntryNow(Abs(), shift, b)
    {
      var key := entries[index[tail]].key.value;
      var j := (tail + (b - key)) % index.Length;
      WalkIsRemainder(index.Length, tail, b - key);
      e := index[j];
      forall shift: seq<nat> | Slotted(Abs(), shift) ensures e == EntryNow(Abs(), shift, b) {
        LookupFindsSlot(Abs(), shift, |shift| - 1, tail, b);
      }
    }
  }
}
