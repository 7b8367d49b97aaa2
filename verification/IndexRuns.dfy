/** The producer's insertions and rewinds in the concurrent model are those of the object
    that it updates in place: over any run of all threads, the index ends up as the object's
    method leaves it, but for entries that consumers have meanwhile set to null. */
module IndexRuns {
  import opened Options
  import opened Slots
  import opened BlockIndex
  import opened CircularIndex
  import opened ImplicitQueue
  import opened ImplicitProducers
  import opened ImplicitRuns

  // ---------------------------------------------------------------------------
  // Entries set to null

  /** The index after consumers have cleared the entries `es`, in that order. */
  ghost function Cleared(ix: Index, es: seq<nat>): (r: Index)
    requires Within(es, ix)
    ensures r.headers == ix.headers && |r.entries| == |ix.entries|
    ensures forall e :: 0 <= e < |ix.entries| ==> r.entries[e].key == ix.entries[e].key
    ensures forall e :: 0 <= e < |ix.entries| ==> r.entries[e].value == ix.entries[e].value || r.entries[e].value == None
  {
    if |es| == 0 then ix else SetValue(Cleared(ix, es[..|es| - 1]), es[|es| - 1], None)
  }

  ghost predicate Within(es: seq<nat>, ix: Index) { forall i :: 0 <= i < |es| ==> es[i] < |ix.entries| }

  /** Clearing does not disturb what headers say. */
  lemma ClearedOk(ix: Index, es: seq<nat>)
    requires Within(es, ix) && IndexOk(ix)
    ensures IndexOk(Cleared(ix, es)) && Cur(Cleared(ix, es)) == Cur(ix) && Candidate(Cleared(ix, es)) == Candidate(ix)
  {
  }

  lemma {:induction false} ClearedKey(ix: Index, es: seq<nat>, e: nat, b: nat)
    requires Within(es, ix) && e < |ix.entries|
    ensures SetKey(Cleared(ix, es), e, b) == Cleared(SetKey(ix, e, b), es)
    decreases |es|
  {
    if |es| > 0 {
      var n := |es| - 1;
      ClearedKey(ix, es[..n], e, b);
      ClearsAfterKey(Cleared(ix, es[..n]), es[n], e, b);
    }
  }

  lemma ClearsAfterKey(ix: Index, c: nat, e: nat, b: nat)
    requires c < |ix.entries| && e < |ix.entries|
    ensures SetKey(SetValue(ix, c, None), e, b) == SetValue(SetKey(ix, e, b), c, None)
  {
  }

  lemma {:induction false} ClearedTail(ix: Index, es: seq<nat>, t: nat)
    requires Within(es, ix) && IndexOk(ix)
    ensures IndexOk(Cleared(ix, es)) && SetTail(Cleared(ix, es), t) == Cleared(SetTail(ix, t), es)
    decreases |es|
  {
    ClearedOk(ix, es);
    if |es| > 0 { ClearedTail(ix, es[..|es| - 1], t); }
  }

  lemma {:induction false} ClearedGrow(ix: Index, es: seq<nat>, junk: seq<Option<nat>>)
    requires Within(es, ix) && IndexOk(ix) && |junk| == |Cur(ix).index|
    ensures IndexOk(Cleared(ix, es)) && |Cur(Cleared(ix, es)).index| == |junk| && Within(es, Grow(ix, junk))
    ensures Grow(Cleared(ix, es), junk) == Cleared(Grow(ix, junk), es)
    decreases |es|
  {
    ClearedOk(ix, es);
    if |es| > 0 {
      var n := |es| - 1;
      ClearedGrow(ix, es[..n], junk);
      ClearedOk(ix, es[..n]);
      GrowsAfterClear(Cleared(ix, es[..n]), es[n], junk);
    }
  }

  lemma GrowsAfterClear(ix: Index, c: nat, junk: seq<Option<nat>>)
    requires c < |ix.entries| && IndexOk(ix) && |junk| == |Cur(ix).index|
    ensures IndexOk(SetValue(ix, c, None)) && Grow(SetValue(ix, c, None), junk) == SetValue(Grow(ix, junk), c, None)
  {
    assert Cur(SetValue(ix, c, None)) == Cur(ix);
    assert Grow(SetValue(ix, c, None), junk).entries == SetValue(Grow(ix, junk), c, None).entries;
  }

  // ---------------------------------------------------------------------------
  // What other threads do to the index

  /** Nothing, or clear one entry. */
  lemma OthersClear(t: State, a: Action) returns (es: seq<nat>)
    requires !a.Produce?
    ensures Within(es, t.ix) && Step(t, a).ix == Cleared(t.ix, es) && Step(t, a).producer == t.producer
  {
    es := [];
    if a.Consume? && a.c < |t.consumers| && ConsumerSafe(t, a.c) {
      var x := t.consumers[a.c];
      match x.pc
      case Unlink =>
        es := [EntryAt(t, x)];
        assert es[..0] == [];
      case LoadKey =>
      case Move =>
      case _ =>
    }
  }

  lemma {:induction false} ClearedMore(ix: Index, es: seq<nat>, fs: seq<nat>)
    requires Within(es, ix) && Within(fs, ix)
    ensures Within(es + fs, ix) && Cleared(Cleared(ix, es), fs) == Cleared(ix, es + fs)
    decreases |fs|
  {
    if |fs| == 0 {
      assert es + fs == es;
    } else {
      var n := |fs| - 1;
      ClearedMore(ix, es, fs[..n]);
      var all := es + fs;
      assert all[..|all| - 1] == es + fs[..n] && all[|all| - 1] == fs[n];
      ClearedLast(ix, all);
      ClearedLast(Cleared(ix, es), fs);
    }
  }

  lemma ClearedLast(ix: Index, es: seq<nat>)
    requires Within(es, ix) && |es| > 0
    ensures Within(es[..|es| - 1], ix)
    ensures Cleared(ix, es) == SetValue(Cleared(ix, es[..|es| - 1]), es[|es| - 1], None)
  {
  }

  // ---------------------------------------------------------------------------
  // Insertion

  /** `base` is the index that the insertion of block n works on: the one at its beginning, or
      a larger one if the slot after the tail was in use. */
  ghost predicate IsBase(ix: Index, base: Index)
    requires IndexOk(ix)
  {
    base == ix || (!IsFree(ix.entries[Candidate(ix)]) && exists junk :: |junk| == |Cur(ix).index| && base == Grow(ix, junk))
  }

  /** How far the insertion of block n is, on `base`. */
  ghost function Reached(p: Producer, base: Index): Index
    requires IndexOk(base)
  {
    if p.StoreTail? then SetKey(base, Candidate(base), p.n) else if p.TakeBlock? then WithKey(base, p.n) else base
  }

  predicate IsInserting(p: Producer, op: Op, n: nat)
  {
    (p.Scan? || p.Publish? || p.StoreKey? || p.StoreTail? || p.TakeBlock?) && p.op == op && p.n == n
  }

  /** From state s at Scan to state t: the insertion so far, with the entries `es` cleared. */
  ghost predicate Inserting(s: State, t: State, base: Index, es: seq<nat>)
  {
    && s.producer.Scan? && IndexOk(s.ix) && IsInserting(t.producer, s.producer.op, s.producer.n)
    && IsBase(s.ix, base) && IndexOk(base) && (t.producer.Scan? || t.producer.Publish? ==> base == s.ix)
    && Within(es, Reached(t.producer, base)) && t.ix == Cleared(Reached(t.producer, base), es)
    && (t.producer.Publish? ==> !IsFree(s.ix.entries[Candidate(s.ix)]))
  }

  lemma GrowOk(ix: Index, junk: seq<Option<nat>>)
    requires IndexOk(ix) && |junk| == |Cur(ix).index|
    ensures IndexOk(Grow(ix, junk))
  {
    GrownOk(Cur(ix), |ix.entries|);
    var ix' := Grow(ix, junk);
    forall h | 0 <= h < |ix'.headers| ensures HeaderOk(ix'.headers[h], |ix'.entries|) {
      if h < |ix.headers| { assert HeaderOk(ix.headers[h], |ix.entries|); }
    }
  }

  lemma ProducerInserts(s: State, t: State, base: Index, es: seq<nat>, a: Action) returns (base': Index)
    requires Inserting(s, t, base, es) && a.Produce? && ProducerSafe(t) && IsInserting(Step(t, a).producer, s.producer.op, s.producer.n)
    requires !t.producer.TakeBlock?
    ensures Inserting(s, Step(t, a), base', es)
  {
    base' := base;
    match t.producer
    case Scan(_, _) => ClearedOk(base, es);
    case Publish(_, _, junk) =>
      ClearedOk(base, es);
      GrowOk(base, junk);
      ClearedGrow(base, es, junk);
      base' := Grow(base, junk);
    case StoreKey(_, n) =>
      ClearedOk(base, es);
      ClearedKey(base, es, Candidate(base), n);
    case StoreTail(_, n) =>
      SetKeyOk(base, Candidate(base), n);
      ClearedOk(SetKey(base, Candidate(base), n), es);
      ClearedTail(SetKey(base, Candidate(base), n), es, Next(|Cur(base).index|, Cur(base).tail));
  }

  lemma StepInserts(s: State, t: State, base: Index, es: seq<nat>, a: Action) returns (base': Index, es': seq<nat>)
    requires Inserting(s, t, base, es) && IsInserting(Step(t, a).producer, s.producer.op, s.producer.n) && (a.Produce? ==> ProducerSafe(t))
    ensures Inserting(s, Step(t, a), base', es')
  {
    base', es' := base, es;
    if !a.Produce? {
      var fs := OthersClear(t, a);
      ClearedMore(Reached(t.producer, base), es, fs);
      es' := es + fs;
    } else if !t.producer.TakeBlock? {
      base' := ProducerInserts(s, t, base, es, a);
    }
  }

  lemma {:induction false} RunInserts(s: State, actions: seq<Action>) returns (base: Index, es: seq<nat>)
    requires Reachable(s) && s.producer.Scan?
    requires forall k :: 0 <= k <= |actions| ==> IsInserting(Run(s, actions[..k]).producer, s.producer.op, s.producer.n)
    ensures Inserting(s, Run(s, actions), base, es) && Reachable(Run(s, actions))
    decreases |actions|
  {
    if |actions| == 0 {
      var g := ReachableInvariant(s);
      TailFacts(s, g);
      base, es := s.ix, [];
    } else {
      var n := |actions| - 1;
      forall k | 0 <= k <= n ensures IsInserting(Run(s, actions[..n][..k]).producer, s.producer.op, s.producer.n) {
        assert actions[..n][..k] == actions[..k];
      }
      base, es := RunInserts(s, actions[..n]);
      assert actions[..|actions|] == actions;
      NeverFaults(Run(s, actions[..n]), 0);
      base, es := StepInserts(s, Run(s, actions[..n]), base, es, actions[n]);
      StaysReachable(Run(s, actions[..n]), actions[n]);
    }
  }

  lemma StaysReachable(s: State, a: Action)
    requires Reachable(s)
    ensures Reachable(Step(s, a))
  {
    var s0, actions :| Init(s0) && s == Run(s0, actions);
    var more := actions + [a];
    assert more[..|more| - 1] == actions;
    assert Step(s, a) == Run(s0, more);
  }

  /** insert_block_index_entry in the concurrent model, from its test to its last store, with
      any steps of all threads in between: the index is as the object's Insert leaves it, grown
      first only if the slot was in use, but for entries that consumers have set to null. */
  lemma InsertRefined(s: State, actions: seq<Action>) returns (base: Index, es: seq<nat>)
    requires Reachable(s) && s.producer.Scan?
    requires forall k :: 0 <= k <= |actions| ==> IsInserting(Run(s, actions[..k]).producer, s.producer.op, s.producer.n)
    requires Run(s, actions).producer.TakeBlock?
    ensures IndexOk(s.ix) && IsBase(s.ix, base) && IndexOk(base)
    ensures Within(es, WithKey(base, s.producer.n)) && Run(s, actions).ix == Cleared(WithKey(base, s.producer.n), es)
  {
    base, es := RunInserts(s, actions);
  }

  // ---------------------------------------------------------------------------
  // Rewinding

  /** rewind_block_index_tail after a failed requisition, likewise. */
  lemma {:induction false} RewindRefined(s: State, actions: seq<Action>) returns (es: seq<nat>)
    requires Reachable(s) && s.producer.Rewind?
    requires forall k :: 0 <= k <= |actions| ==> Run(s, actions[..k]).producer.Rewind? || Run(s, actions[..k]).producer.ClearEntry?
    ensures IndexOk(s.ix) && Reachable(Run(s, actions))
    ensures var ix := if Run(s, actions).producer.Rewind? then s.ix else StepBack(s.ix);
            Within(es, ix) && Run(s, actions).ix == Cleared(ix, es)
    decreases |actions|
  {
    var g := ReachableInvariant(s);
    TailFacts(s, g);
    if |actions| == 0 {
      es := [];
    } else {
      var n := |actions| - 1;
      forall k | 0 <= k <= n ensures Run(s, actions[..n][..k]).producer.Rewind? || Run(s, actions[..n][..k]).producer.ClearEntry? {
        assert actions[..n][..k] == actions[..k];
      }
      es := RewindRefined(s, actions[..n]);
      var t := Run(s, actions[..n]);
      assert actions[..|actions|] == actions;
      NeverFaults(t, 0);
      StaysReachable(t, actions[n]);
      es := StepRewinds(s.ix, t, es, actions[n]);
    }
  }

  /** One more step before, at or after the rewind. */
  lemma StepRewinds(ix: Index, t: State, es: seq<nat>, a: Action) returns (es': seq<nat>)
    requires IndexOk(ix) && (t.producer.Rewind? || t.producer.ClearEntry?) && ProducerSafe(t)
    requires Step(t, a).producer.Rewind? || Step(t, a).producer.ClearEntry?
    requires var base := if t.producer.Rewind? then ix else StepBack(ix); Within(es, base) && t.ix == Cleared(base, es)
    ensures var base := if Step(t, a).producer.Rewind? then ix else StepBack(ix); Within(es', base) && Step(t, a).ix == Cleared(base, es')
  {
    es' := es;
    if !a.Produce? {
      var fs := OthersClear(t, a);
      ClearedMore(if t.producer.Rewind? then ix else StepBack(ix), es, fs);
      es' := es + fs;
    } else if t.producer.Rewind? {
      ClearedOk(ix, es);
      ClearedTail(ix, es, Prev(|Cur(ix).index|, Cur(ix).tail));
    }
  }
}
