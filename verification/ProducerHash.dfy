/** The map from thread ids to implicit producers: a chain of open-addressing hash tables,
    each larger than the one before. A thread looks for its id from the newest table it
    loaded back to the oldest; an id found in an older table is copied to the newest one;
    an id not found gets a ticket from a counter, and a new producer. A table that is half
    full is replaced under a flag that one thread at a time can hold. One step is one access
    to shared memory; the entry of an id is read and written by its own thread only. */
module ProducerHash {
  import opened Options
  import opened Counting
  import opened Slots
  import opened Bits

  /** Slot i has a thread id as its key, or none, and that thread's producer. */
  datatype Table = Table(keys: seq<Option<nat>>, values: seq<Option<nat>>)

  datatype PC =
    | Idle
    | Search(main: nat, h: nat, d: nat)            // about to load the key d slots on in table h
    | AddTicket(main: nat)                         // found nowhere: about to add 1 to the count
    | Check(main: nat, n: nat)                     // with ticket n: about to test the flag if need be
    | Reload(n: nat)                               // has the flag: about to load the newest table
    | Alloc(main: nat, n: nat)                     // about to allocate a larger table
    | Publish(main: nat, n: nat, cap: nat)         // about to publish it
    | Unlock(main: nat, n: nat)                    // about to clear the flag
    | Decide(main: nat, n: nat)                    // room in table main? about to create a producer
    | Again(n: nat)                                // no: about to load the newest table
    | Probe(main: nat, d: nat, p: nat)             // about to load a key, looking for an empty slot for p
    | Claim(main: nat, d: nat, p: nat)             // saw it empty: about to compare-and-swap it
    | Store(main: nat, d: nat, p: nat)             // has the slot: about to store p and return it
    | Drop(locked: bool)                           // out of memory: about to take 1 from the count
    | DropLock                                     // about to clear the flag and return null

  /** `ticket` is the thread's number from the counter as long as it counts, `reg` the
      producer it has registered, `result` what its last call returned. */
  datatype Thread = Thread(pc: PC, ticket: Option<nat>, reg: Option<nat>, result: Option<Option<nat>>)

  /** The last table is the newest. `made` producers have been created; `hash` are the
      hashes of the thread ids. */
  datatype State = State(tables: seq<Table>, count: int, locked: bool, made: nat, hash: seq<nat>, threads: seq<Thread>)

  function Cap(t: Table): nat { |t.keys| }

  /** Probing starts at hashedId & (capacity - 1). */
  function Home(hash: nat, cap: nat): nat
    requires cap > 0
  {
    And(hash, cap - 1)
  }

  function SlotAt(t: Table, hash: nat, d: nat): nat
    requires Cap(t) > 0
  {
    Walk(Cap(t), Home(hash, Cap(t)), d)
  }

  predicate TableOk(t: Table) { Cap(t) > 0 && |t.values| == Cap(t) }

  predicate HasRoom(n: nat, cap: nat) { n < cap / 2 + cap / 4 }

  function EmptyTable(cap: nat): Table { Table(seq(cap, _ => None), seq(cap, _ => None)) }

  /** Capacity of the next table: doubled at least once, and until the ticket is below half. */
  function Doubled(n: nat, cap: nat): nat
    requires cap > 0
    decreases if n >= cap / 2 then 2 * n + 2 - cap else 0
  {
    if n >= cap / 2 then Doubled(n, 2 * cap) else cap
  }

  function Set(s: State, t: nat, x: Thread): State
    requires t < |s.threads|
  {
    s.(threads := s.threads[t := x])
  }

  function Goto(s: State, t: nat, pc: PC): State
    requires t < |s.threads|
  {
    Set(s, t, s.threads[t].(pc := pc))
  }

  function Return(s: State, t: nat, r: Option<nat>): State
    requires t < |s.threads|
  {
    Set(s, t, s.threads[t].(pc := Idle, result := Some(r)))
  }

  /** All tables and slots a thread refers to exist. */
  predicate Safe(s: State, t: nat)
  {
    && t < |s.threads| && t < |s.hash| && |s.tables| > 0
    && (forall h :: 0 <= h < |s.tables| ==> TableOk(s.tables[h]))
    && match s.threads[t].pc
       case Search(main, h, d) => h < |s.tables| && SlotAt(s.tables[h], s.hash[t], d) < Cap(s.tables[h])
       case Check(main, _) => main < |s.tables|
       case Alloc(main, _) => main < |s.tables|
       case Decide(main, _) => main < |s.tables|
       case Probe(main, d, _) => main < |s.tables| && SlotAt(s.tables[main], s.hash[t], d) < Cap(s.tables[main])
       case Claim(main, d, _) => main < |s.tables| && SlotAt(s.tables[main], s.hash[t], d) < Cap(s.tables[main])
       case Store(main, d, _) => main < |s.tables| && SlotAt(s.tables[main], s.hash[t], d) < Cap(s.tables[main])
       case _ => true
  }

  function SearchStep(s: State, t: nat): State
    requires Safe(s, t) && s.threads[t].pc.Search?
  {
    var Search(main, h, d) := s.threads[t].pc;
    var i := SlotAt(s.tables[h], s.hash[t], d);
    var key := s.tables[h].keys[i];
    if key == Some(t) then
      var v := s.tables[h].values[i];
      if h != main && v.Some? then Goto(s, t, Probe(main, 0, v.value)) else Return(s, t, v)
    else if key.None? then
      if h > 0 then Goto(s, t, Search(main, h - 1, 0)) else Goto(s, t, AddTicket(main))
    else Goto(s, t, Search(main, h, d + 1))
  }

  function AddTicketStep(s: State, t: nat): State
    requires Safe(s, t) && s.threads[t].pc.AddTicket?
  {
    var n := if s.count >= 0 then s.count + 1 else 0;
    Set(s.(count := s.count + 1), t, s.threads[t].(pc := Check(s.threads[t].pc.main, n), ticket := Some(n)))
  }

  function CheckStep(s: State, t: nat): State
    requires Safe(s, t) && s.threads[t].pc.Check?
  {
    var Check(main, n) := s.threads[t].pc;
    if n >= Cap(s.tables[main]) / 2 && !s.locked then Goto(s.(locked := true), t, Reload(n)) else Goto(s, t, Decide(main, n))
  }

  function ReloadStep(s: State, t: nat): State
    requires Safe(s, t) && s.threads[t].pc.Reload?
  {
    var n, main := s.threads[t].pc.n, |s.tables| - 1;
    if n >= Cap(s.tables[main]) / 2 then Goto(s, t, Alloc(main, n)) else Goto(s, t, Unlock(main, n))
  }

  function AllocStep(s: State, t: nat, ok: bool): State
    requires Safe(s, t) && s.threads[t].pc.Alloc?
  {
    var Alloc(main, n) := s.threads[t].pc;
    if ok then Goto(s, t, Publish(main, n, Doubled(n, 2 * Cap(s.tables[main])))) else Goto(s, t, Drop(true))
  }

  function PublishStep(s: State, t: nat): State
    requires Safe(s, t) && s.threads[t].pc.Publish?
  {
    var Publish(_, n, cap) := s.threads[t].pc;
    Goto(s.(tables := s.tables + [EmptyTable(cap)]), t, Unlock(|s.tables|, n))
  }

  function DecideStep(s: State, t: nat, ok: bool): State
    requires Safe(s, t) && s.threads[t].pc.Decide?
  {
    var Decide(main, n) := s.threads[t].pc;
    if HasRoom(n, Cap(s.tables[main])) then
      if ok then Goto(s.(made := s.made + 1), t, Probe(main, 0, s.made)) else Goto(s, t, Drop(false))
    else Goto(s, t, Again(n))
  }

  function ProbeStep(s: State, t: nat): State
    requires Safe(s, t) && s.threads[t].pc.Probe?
  {
    var Probe(main, d, p) := s.threads[t].pc;
    if s.tables[main].keys[SlotAt(s.tables[main], s.hash[t], d)].None? then Goto(s, t, Claim(main, d, p))
    else Goto(s, t, Probe(main, d + 1, p))
  }

  function SetKeyAt(s: State, h: nat, i: nat, t: nat): State
    requires h < |s.tables| && i < Cap(s.tables[h])
  {
    s.(tables := s.tables[h := s.tables[h].(keys := s.tables[h].keys[i := Some(t)])])
  }

  function ClaimStep(s: State, t: nat): State
    requires Safe(s, t) && s.threads[t].pc.Claim?
  {
    var Claim(main, d, p) := s.threads[t].pc;
    var i := SlotAt(s.tables[main], s.hash[t], d);
    if s.tables[main].keys[i].None? then Goto(SetKeyAt(s, main, i, t), t, Store(main, d, p))
    else Goto(s, t, Probe(main, d + 1, p))
  }

  function StoreStep(s: State, t: nat): State
    requires Safe(s, t) && s.threads[t].pc.Store?
  {
    var Store(main, d, p) := s.threads[t].pc;
    var i, table := SlotAt(s.tables[main], s.hash[t], d), s.tables[main];
    Set(s.(tables := s.tables[main := table.(values := table.values[i := Some(p)])]), t,
        s.threads[t].(pc := Idle, reg := Some(p), result := Some(Some(p))))
  }

  function DropStep(s: State, t: nat): State
    requires Safe(s, t) && s.threads[t].pc.Drop?
  {
    var x := s.threads[t];
    var s' := Set(s.(count := s.count - 1), t, x.(ticket := None));
    if x.pc.locked then Goto(s', t, DropLock) else Return(s', t, None)
  }

  /** A step of thread t; `ok` says whether memory is to be had. */
  function Step(s: State, t: nat, ok: bool): State
  {
    if !Safe(s, t) then s else
    match s.threads[t].pc
    case Idle => Goto(s, t, Search(|s.tables| - 1, |s.tables| - 1, 0))
    case Search(_, _, _) => SearchStep(s, t)
    case AddTicket(_) => AddTicketStep(s, t)
    case Check(_, _) => CheckStep(s, t)
    case Reload(_) => ReloadStep(s, t)
    case Alloc(_, _) => AllocStep(s, t, ok)
    case Publish(_, _, _) => PublishStep(s, t)
    case Unlock(main, n) => Goto(s.(locked := false), t, Decide(main, n))
    case Decide(_, _) => DecideStep(s, t, ok)
    case Again(n) => Goto(s, t, Check(|s.tables| - 1, n))
    case Probe(_, _, _) => ProbeStep(s, t)
    case Claim(_, _, _) => ClaimStep(s, t)
    case Store(_, _, _) => StoreStep(s, t)
    case Drop(_) => DropStep(s, t)
    case DropLock => Return(s.(locked := false), t, None)
  }

  // ---------------------------------------------------------------------------
  // Invariant

  /** Parts of the invariant, each stated under `forall u :: Use(part, u) ==> ...` so that a
      proof looks into a part only if it concludes that part or says Use(part, true). */
  datatype Part = TheTables | TheTickets | TheKeys | TheThreads | TheFlag | TheProducers

  predicate Use(part: Part, u: bool) { true }

  /** Capacities grow along the chain. */
  ghost predicate TablesInv(tables: seq<Table>)
  {
    && |tables| > 0 && (forall h :: 0 <= h < |tables| ==> TableOk(tables[h]))
    && (forall g, h :: 0 <= g < h < |tables| ==> Cap(tables[g]) < Cap(tables[h]))
  }

  function HasTicket(x: Thread): nat { if x.ticket.Some? then 1 else 0 }
  function TicketUpTo(x: Thread, n: nat): nat { if x.ticket.Some? && x.ticket.value <= n then 1 else 0 }
  function UpToFn(n: nat): Thread -> nat { (x: Thread) => TicketUpTo(x, n) }

  /** The counter counts the tickets, and at most n of them are n or less, although tickets
      are given back and numbers handed out again. */
  ghost predicate TicketsInv(count: int, threads: seq<Thread>)
  {
    forall u :: Use(TheTickets, u) ==> TicketsParts(count, threads)
  }

  ghost predicate TicketsParts(count: int, threads: seq<Thread>)
  {
    count == Sum(threads, HasTicket) && forall n: nat :: Sum(threads, UpToFn(n)) <= n
  }

  /** The first d slots probed are taken. */
  ghost predicate Taken(t: Table, hash: nat, d: nat)
    requires Cap(t) > 0
  {
    forall e: nat :: e < d ==> KeyAt(t, hash, e).Some?
  }

  /** The key found after e slots. */
  ghost function KeyAt(t: Table, hash: nat, e: nat): Option<nat>
    requires Cap(t) > 0
  {
    if SlotAt(t, hash, e) < Cap(t) then t.keys[SlotAt(t, hash, e)] else None
  }

  /** The first d slots probed are taken by others. */
  ghost predicate Passed(t: Table, hash: nat, d: nat, id: nat)
    requires Cap(t) > 0
  {
    forall e: nat :: e < d ==> KeyAt(t, hash, e).Some? && KeyAt(t, hash, e) != Some(id)
  }

  ghost predicate Absent(t: Table, id: nat) { forall i :: 0 <= i < Cap(t) ==> t.keys[i] != Some(id) }

  /** A key can be reached by probing, occurs once, its thread has a ticket below the room
      limit, and its value is that thread's producer unless the thread is about to store it. */
  ghost predicate KeyOk(table: Table, h: nat, i: nat, id: nat, hash: seq<nat>, threads: seq<Thread>)
    requires TableOk(table) && i < Cap(table)
  {
    && id < |threads| == |hash|
    && threads[id].ticket.Some? && HasRoom(threads[id].ticket.value, Cap(table))
    && (exists d: nat :: d < Cap(table) && SlotAt(table, hash[id], d) == i && Taken(table, hash[id], d))
    && (forall j :: 0 <= j < Cap(table) && table.keys[j] == Some(id) ==> j == i)
    && (if AtStore(threads[id].pc, h) then SlotAt(table, hash[id], threads[id].pc.d) == i
        else threads[id].reg.Some? && table.values[i] == threads[id].reg)
  }

  predicate AtStore(pc: PC, h: nat) { pc.Store? && pc.main == h }

  ghost predicate KeysOk(table: Table, h: nat, hash: seq<nat>, threads: seq<Thread>)
  {
    TableOk(table) && forall i :: 0 <= i < Cap(table) ==> (table.keys[i].Some? ==> KeyOk(table, h, i, table.keys[i].value, hash, threads))
  }

  ghost predicate KeysInv(tables: seq<Table>, hash: seq<nat>, threads: seq<Thread>)
  {
    forall u :: Use(TheKeys, u) ==> KeysParts(tables, hash, threads)
  }

  ghost predicate KeysParts(tables: seq<Table>, hash: seq<nat>, threads: seq<Thread>)
  {
    forall h :: 0 <= h < |tables| ==> KeysOk(tables[h], h, hash, threads)
  }

  /** The id is in no table from `h` on. */
  ghost predicate AbsentFrom(tables: seq<Table>, h: nat, id: nat)
  {
    forall g :: h <= g < |tables| ==> Absent(tables[g], id)
  }

  ghost predicate Somewhere(tables: seq<Table>, id: nat) { exists g :: 0 <= g < |tables| && !Absent(tables[g], id) }

  /** Whether the id is in some table agrees with the thread having a producer. */
  ghost predicate Registered(tables: seq<Table>, x: Thread, id: nat)
  {
    && (x.reg.Some? ==> x.ticket.Some? && Somewhere(tables, id))
    && (x.reg.None? ==> AbsentFrom(tables, 0, id) || x.pc.Store?)
    && (if x.reg.Some? then x.result == Some(x.reg) else x.result == None || x.result == Some(None))
  }

  ghost predicate PcOk(tables: seq<Table>, hash: nat, x: Thread, id: nat)
    requires TablesInv(tables)
  {
    match x.pc
    case Idle => x.reg.None? ==> x.ticket.None?
    case Search(main, h, d) =>
      && h <= main < |tables| && Passed(tables[h], hash, d, id) && AbsentFrom(tables, h + 1, id)
      && (x.reg.None? ==> x.ticket.None?)
    case AddTicket(main) => main < |tables| && x.reg.None? && x.ticket.None?
    case Check(main, n) => main < |tables| && x.reg.None? && x.ticket == Some(n)
    case Reload(n) => x.reg.None? && x.ticket == Some(n)
    case Alloc(main, n) => main == |tables| - 1 && x.reg.None? && x.ticket == Some(n) && n >= Cap(tables[main]) / 2
    case Publish(main, n, cap) => main == |tables| - 1 && x.reg.None? && x.ticket == Some(n) && Cap(tables[main]) < cap && HasRoom(n, cap)
    case Unlock(main, n) => main < |tables| && x.reg.None? && x.ticket == Some(n) && HasRoom(n, Cap(tables[main]))
    case Decide(main, n) => main < |tables| && x.reg.None? && x.ticket == Some(n)
    case Again(n) => x.reg.None? && x.ticket == Some(n)
    case Probe(main, d, p) => Placing(tables, hash, x, id, main, d, p)
    case Claim(main, d, p) => Placing(tables, hash, x, id, main, d, p)
    case Store(main, d, p) =>
      && main < |tables| && (x.reg.Some? ==> x.reg == Some(p)) && KeyAt(tables[main], hash, d) == Some(id)
      && (x.reg.None? ==> forall g :: 0 <= g < |tables| && g != main ==> Absent(tables[g], id))
    case Drop(_) => x.reg.None? && x.ticket.Some?
    case DropLock => x.reg.None? && x.ticket.None?
  }

  /** Looking for an empty slot in a table that does not have the id, with a ticket that is
      below its room limit. */
  ghost predicate Placing(tables: seq<Table>, hash: nat, x: Thread, id: nat, main: nat, d: nat, p: nat)
    requires TablesInv(tables)
  {
    && main < |tables| && Passed(tables[main], hash, d, id) && Absent(tables[main], id)
    && x.ticket.Some? && HasRoom(x.ticket.value, Cap(tables[main]))
    && (x.reg.Some? ==> x.reg == Some(p))
  }

  ghost predicate ThreadsInv(tables: seq<Table>, hash: seq<nat>, threads: seq<Thread>)
  {
    forall u :: Use(TheThreads, u) ==> ThreadsParts(tables, hash, threads)
  }

  ghost predicate ThreadsParts(tables: seq<Table>, hash: seq<nat>, threads: seq<Thread>)
  {
    && TablesInv(tables) && |hash| == |threads|
    && (forall t :: 0 <= t < |threads| ==> PcOk(tables, hash[t], threads[t], t))
    && (forall t :: 0 <= t < |threads| ==> Registered(tables, threads[t], t))
  }

  predicate HoldsFlag(pc: PC)
  {
    pc.Reload? || pc.Alloc? || pc.Publish? || pc.Unlock? || (pc.Drop? && pc.locked) || pc.DropLock?
  }

  /** One thread at a time has the flag. */
  ghost predicate FlagInv(locked: bool, threads: seq<Thread>)
  {
    forall u :: Use(TheFlag, u) ==> FlagParts(locked, threads)
  }

  ghost predicate SomeHolder(threads: seq<Thread>) { exists t :: 0 <= t < |threads| && HoldsFlag(threads[t].pc) }

  ghost predicate FlagParts(locked: bool, threads: seq<Thread>)
  {
    && (forall t, v :: 0 <= t < |threads| && 0 <= v < |threads| && HoldsFlag(threads[t].pc) && HoldsFlag(threads[v].pc) ==> t == v)
    && (forall t :: 0 <= t < |threads| && HoldsFlag(threads[t].pc) ==> locked)
    && (locked ==> SomeHolder(threads))
  }

  /** The producer a thread has or is about to register. */
  function ProducerOf(x: Thread): Option<nat>
  {
    if x.pc.Probe? || x.pc.Claim? || x.pc.Store? then Some(x.pc.p) else x.reg
  }

  ghost predicate ProducersInv(made: nat, threads: seq<Thread>)
  {
    forall u :: Use(TheProducers, u) ==> ProducersParts(made, threads)
  }

  ghost predicate ProducersParts(made: nat, threads: seq<Thread>)
  {
    && (forall t :: 0 <= t < |threads| ==> (ProducerOf(threads[t]).Some? ==> ProducerOf(threads[t]).value < made))
    && (forall t, v :: 0 <= t < v < |threads| && ProducerOf(threads[t]).Some? ==> ProducerOf(threads[t]) != ProducerOf(threads[v]))
  }

  ghost predicate Inv(s: State)
  {
    && TablesInv(s.tables) && |s.hash| == |s.threads|
    && TicketsInv(s.count, s.threads)
    && KeysInv(s.tables, s.hash, s.threads)
    && ThreadsInv(s.tables, s.hash, s.threads)
    && FlagInv(s.locked, s.threads)
    && ProducersInv(s.made, s.threads)
  }

  // ---------------------------------------------------------------------------
  // Slots

  lemma {:induction false} AndBound(a: nat, b: nat)
    ensures And(a, b) <= b
  {
    if a != 0 && b != 0 { AndBound(a / 2, b / 2); }
  }

  lemma SlotBound(t: Table, hash: nat, d: nat)
    requires Cap(t) > 0
    ensures Home(hash, Cap(t)) < Cap(t) && SlotAt(t, hash, d) < Cap(t)
  {
    AndBound(hash, Cap(t) - 1);
    WalkBound(Cap(t), Home(hash, Cap(t)), d);
  }

  /** Probing visits every slot within one turn. */
  lemma ReachesSlot(t: Table, hash: nat, i: nat) returns (d: nat)
    requires i < Cap(t)
    ensures d < Cap(t) && SlotAt(t, hash, d) == i
  {
    SlotBound(t, hash, 0);
    var home := Home(hash, Cap(t));
    d := if home <= i then i - home else i + Cap(t) - home;
    WalkNear(Cap(t), home, d);
  }

  // ---------------------------------------------------------------------------
  // An empty slot is left

  ghost function WithTicket(threads: seq<Thread>, n: nat): set<nat>
  {
    set t | 0 <= t < |threads| && TicketUpTo(threads[t], n) == 1
  }

  lemma {:induction false} CountTickets(threads: seq<Thread>, n: nat)
    ensures |WithTicket(threads, n)| == Sum(threads, UpToFn(n))
    decreases |threads|
  {
    if |threads| == 0 {
      assert WithTicket(threads, n) == {};
    } else {
      var k := |threads| - 1;
      CountTickets(threads[..k], n);
      SumLast(threads, UpToFn(n));
      assert WithTicket(threads, n) == WithTicket(threads[..k], n) + (if TicketUpTo(threads[k], n) == 1 then {k} else {});
    }
  }

  lemma {:induction false} SumLast<T>(s: seq<T>, f: T -> nat)
    requires |s| > 0
    ensures Sum(s, f) == Sum(s[..|s| - 1], f) + f(s[|s| - 1])
  {
    if |s| > 1 {
      SumLast(s[1..], f);
      assert s[..|s| - 1][1..] == s[1..][..|s| - 2];
    }
  }

  /** The ids in the first n slots, if all are taken. */
  ghost function Ids(keys: seq<Option<nat>>, n: nat): set<nat>
    requires n <= |keys| && forall i :: 0 <= i < n ==> keys[i].Some?
  {
    set i | 0 <= i < n :: keys[i].value
  }

  lemma {:induction false} DistinctIds(keys: seq<Option<nat>>, n: nat)
    requires n <= |keys| && forall i :: 0 <= i < n ==> keys[i].Some?
    requires forall i, j :: 0 <= i < j < n ==> keys[i] != keys[j]
    ensures |Ids(keys, n)| == n
  {
    if n > 0 {
      DistinctIds(keys, n - 1);
      assert Ids(keys, n) == Ids(keys, n - 1) + {keys[n - 1].value};
    }
  }

  lemma SubsetSize(a: set<nat>, b: set<nat>)
    requires a <= b
    ensures |a| <= |b|
  {
    assert b == a + (b - a);
  }

  /** Every table keeps an empty slot: its ids have different tickets' owners, all with
      tickets below three quarters of the capacity, and there are fewer of those than slots. */
  lemma EmptySlot(table: Table, h: nat, hash: seq<nat>, count: int, threads: seq<Thread>) returns (i: nat)
    requires KeysOk(table, h, hash, threads) && TicketsInv(count, threads)
    ensures i < Cap(table) && table.keys[i].None?
  {
    if exists j :: 0 <= j < Cap(table) && table.keys[j].None? {
      i :| 0 <= i < Cap(table) && table.keys[i].None?;
    } else {
      assert Use(TheTickets, true);
      var cap := Cap(table);
      var limit := cap / 2 + cap / 4;
      assert KeyOk(table, h, 0, table.keys[0].value, hash, threads);
      forall i, j | 0 <= i < j < cap ensures table.keys[i] != table.keys[j] {
        assert KeyOk(table, h, i, table.keys[i].value, hash, threads);
      }
      DistinctIds(table.keys, cap);
      CountTickets(threads, limit - 1);
      forall id | id in Ids(table.keys, cap) ensures id in WithTicket(threads, limit - 1) {
        var j :| 0 <= j < cap && table.keys[j].value == id;
        assert KeyOk(table, h, j, id, hash, threads);
      }
      SubsetSize(Ids(table.keys, cap), WithTicket(threads, limit - 1));
      assert false;
    }
  }

  /** So a probe that has met only taken slots has not gone round. */
  lemma ProbeBound(table: Table, h: nat, hash: seq<nat>, count: int, threads: seq<Thread>, home: nat, d: nat)
    requires KeysOk(table, h, hash, threads) && TicketsInv(count, threads) && Taken(table, home, d)
    ensures d < Cap(table)
  {
    var i := EmptySlot(table, h, hash, count, threads);
    var e := ReachesSlot(table, home, i);
    assert KeyAt(table, home, e).None?;
  }

  // ---------------------------------------------------------------------------
  // Changes of one thread

  lemma ThreadFacts(s: State, t: nat)
    requires Inv(s) && t < |s.threads|
    ensures PcOk(s.tables, s.hash[t], s.threads[t], t) && Registered(s.tables, s.threads[t], t)
  {
    assert Use(TheThreads, true);
  }

  lemma TableFacts(s: State, h: nat)
    requires Inv(s) && h < |s.tables|
    ensures KeysOk(s.tables[h], h, s.hash, s.threads)
  {
    assert Use(TheKeys, true);
  }

  lemma TicketsSame(count: int, threads: seq<Thread>, t: nat, x: Thread)
    requires TicketsInv(count, threads) && t < |threads| && x.ticket == threads[t].ticket
    ensures TicketsInv(count, threads[t := x])
  {
    assert Use(TheTickets, true);
    SumUpdate(threads, t, x, HasTicket);
    forall n: nat ensures Sum(threads[t := x], UpToFn(n)) <= n { SumUpdate(threads, t, x, UpToFn(n)); }
  }

  lemma KeysThread(tables: seq<Table>, hash: seq<nat>, threads: seq<Thread>, t: nat, x: Thread)
    requires KeysInv(tables, hash, threads) && t < |threads| && x.ticket == threads[t].ticket && x.reg == threads[t].reg
    requires !x.pc.Store? && !threads[t].pc.Store?
    ensures KeysInv(tables, hash, threads[t := x])
  {
    assert Use(TheKeys, true);
    forall h | 0 <= h < |tables| ensures KeysOk(tables[h], h, hash, threads[t := x]) {
      assert KeysOk(tables[h], h, hash, threads);
      KeysOkThread(tables[h], h, hash, threads, t, x);
    }
  }

  lemma KeysOkThread(table: Table, h: nat, hash: seq<nat>, threads: seq<Thread>, t: nat, x: Thread)
    requires KeysOk(table, h, hash, threads) && t < |threads| && x.ticket == threads[t].ticket && x.reg == threads[t].reg
    requires !x.pc.Store? && !threads[t].pc.Store?
    ensures KeysOk(table, h, hash, threads[t := x])
  {
    forall i | 0 <= i < Cap(table) && table.keys[i].Some? ensures KeyOk(table, h, i, table.keys[i].value, hash, threads[t := x]) {
      assert KeyOk(table, h, i, table.keys[i].value, hash, threads);
    }
  }

  lemma ThreadsOne(tables: seq<Table>, hash: seq<nat>, threads: seq<Thread>, t: nat, x: Thread)
    requires ThreadsInv(tables, hash, threads) && t < |threads| == |hash| && TablesInv(tables)
    requires PcOk(tables, hash[t], x, t) && Registered(tables, x, t)
    ensures ThreadsInv(tables, hash, threads[t := x])
  {
  }

  lemma FlagSame(locked: bool, threads: seq<Thread>, t: nat, x: Thread)
    requires FlagInv(locked, threads) && t < |threads| && (HoldsFlag(x.pc) <==> HoldsFlag(threads[t].pc))
    ensures FlagInv(locked, threads[t := x])
  {
    assert Use(TheFlag, true);
    if locked {
      var v :| 0 <= v < |threads| && HoldsFlag(threads[v].pc);
      assert HoldsFlag(threads[t := x][v].pc);
    }
  }

  lemma ProducersSame(made: nat, threads: seq<Thread>, t: nat, x: Thread)
    requires ProducersInv(made, threads) && t < |threads| && ProducerOf(x) == ProducerOf(threads[t])
    ensures ProducersInv(made, threads[t := x])
  {
  }

  /** A step that only takes the thread to another point. */
  lemma KeepMove(s: State, t: nat, x: Thread)
    requires Inv(s) && t < |s.threads| && x.ticket == s.threads[t].ticket && x.reg == s.threads[t].reg
    requires !x.pc.Store? && !s.threads[t].pc.Store? && (HoldsFlag(x.pc) <==> HoldsFlag(s.threads[t].pc))
    requires ProducerOf(x) == ProducerOf(s.threads[t]) && PcOk(s.tables, s.hash[t], x, t)
    requires x.result == s.threads[t].result || x.result == Some(x.reg)
    ensures Inv(Set(s, t, x))
  {
    ThreadFacts(s, t);
    TicketsSame(s.count, s.threads, t, x);
    KeysThread(s.tables, s.hash, s.threads, t, x);
    ThreadsOne(s.tables, s.hash, s.threads, t, x);
    FlagSame(s.locked, s.threads, t, x);
    ProducersSame(s.made, s.threads, t, x);
  }

  // ---------------------------------------------------------------------------
  // Searching

  lemma PassedOver(table: Table, hash: nat, d: nat, e: nat, id: nat)
    requires Cap(table) > 0 && Passed(table, hash, d, id) && KeyAt(table, hash, d).None? && Taken(table, hash, e)
    ensures KeyAt(table, hash, e) != Some(id)
  {
  }

  /** An empty slot on the way: the id is not in this table. */
  lemma NotHere(table: Table, h: nat, hash: seq<nat>, threads: seq<Thread>, d: nat, id: nat)
    requires KeysOk(table, h, hash, threads) && id < |hash| && Passed(table, hash[id], d, id) && KeyAt(table, hash[id], d).None?
    ensures Absent(table, id)
  {
    forall i | 0 <= i < Cap(table) ensures table.keys[i] != Some(id) {
      if table.keys[i] == Some(id) {
        assert KeyOk(table, h, i, id, hash, threads);
        var e: nat :| e < Cap(table) && SlotAt(table, hash[id], e) == i && Taken(table, hash[id], e);
        PassedOver(table, hash[id], d, e, id);
      }
    }
  }

  /** What a thread finds under its own id is its producer. */
  lemma FoundValue(s: State, t: nat, h: nat, i: nat)
    requires Inv(s) && t < |s.threads| && !s.threads[t].pc.Store? && h < |s.tables| && i < Cap(s.tables[h]) && s.tables[h].keys[i] == Some(t)
    ensures s.threads[t].reg.Some? && s.tables[h].values[i] == s.threads[t].reg
    ensures s.threads[t].ticket.Some? && HasRoom(s.threads[t].ticket.value, Cap(s.tables[h]))
  {
    TableFacts(s, h);
    assert KeyOk(s.tables[h], h, i, t, s.hash, s.threads);
  }

  lemma KeepSearchFound(s: State, t: nat)
    requires Inv(s) && Safe(s, t) && s.threads[t].pc.Search?
    requires var pc := s.threads[t].pc; s.tables[pc.h].keys[SlotAt(s.tables[pc.h], s.hash[t], pc.d)] == Some(t)
    ensures Inv(SearchStep(s, t))
    ensures s.threads[t].reg.Some? && SearchStep(s, t).threads[t].result ==
              (if s.threads[t].pc.h == s.threads[t].pc.main then Some(s.threads[t].reg) else s.threads[t].result)
  {
    var Search(main, h, d) := s.threads[t].pc;
    ThreadFacts(s, t);
    var i := SlotAt(s.tables[h], s.hash[t], d);
    FoundValue(s, t, h, i);
    var v := s.threads[t].reg;
    if h != main {
      assert Cap(s.tables[h]) < Cap(s.tables[main]);
      KeepMove(s, t, s.threads[t].(pc := Probe(main, 0, v.value)));
    } else {
      KeepMove(s, t, s.threads[t].(pc := Idle, result := Some(v)));
    }
  }

  lemma KeepSearchOn(s: State, t: nat)
    requires Inv(s) && Safe(s, t) && s.threads[t].pc.Search?
    requires var pc := s.threads[t].pc; s.tables[pc.h].keys[SlotAt(s.tables[pc.h], s.hash[t], pc.d)] != Some(t)
    ensures Inv(SearchStep(s, t))
  {
    var Search(main, h, d) := s.threads[t].pc;
    ThreadFacts(s, t);
    var key := s.tables[h].keys[SlotAt(s.tables[h], s.hash[t], d)];
    assert KeyAt(s.tables[h], s.hash[t], d) == key;
    if key.None? {
      TableFacts(s, h);
      NotHere(s.tables[h], h, s.hash, s.threads, d, t);
      assert AbsentFrom(s.tables, h, t);
      if h > 0 { KeepMove(s, t, s.threads[t].(pc := Search(main, h - 1, 0))); }
      else { KeepMove(s, t, s.threads[t].(pc := AddTicket(main))); }
    } else {
      KeepMove(s, t, s.threads[t].(pc := Search(main, h, d + 1)));
    }
  }

  // ---------------------------------------------------------------------------
  // Tickets

  /** Handing out number count + 1: of the tickets up to n there are no more than n. */
  lemma TicketsAdd(count: int, threads: seq<Thread>, t: nat, x: Thread)
    requires TicketsInv(count, threads) && t < |threads| && threads[t].ticket.None?
    requires count >= 0 ==> x.ticket == Some(count + 1)
    ensures count >= 0 && TicketsInv(count + 1, threads[t := x])
  {
    assert Use(TheTickets, true);
    SumUpdate(threads, t, x, HasTicket);
    forall n: nat ensures Sum(threads[t := x], UpToFn(n)) <= n {
      SumUpdate(threads, t, x, UpToFn(n));
      SumEqual(threads, UpToFn(n), HasTicket);
    }
  }

  lemma TicketsDrop(count: int, threads: seq<Thread>, t: nat, x: Thread)
    requires TicketsInv(count, threads) && t < |threads| && threads[t].ticket.Some? && x.ticket.None?
    ensures TicketsInv(count - 1, threads[t := x])
  {
    assert Use(TheTickets, true);
    SumUpdate(threads, t, x, HasTicket);
    forall n: nat ensures Sum(threads[t := x], UpToFn(n)) <= n { SumUpdate(threads, t, x, UpToFn(n)); }
  }

  /** A thread whose id is in no table may change at will. */
  lemma KeysAbsent(tables: seq<Table>, hash: seq<nat>, threads: seq<Thread>, t: nat, x: Thread)
    requires KeysInv(tables, hash, threads) && t < |threads| && AbsentFrom(tables, 0, t)
    ensures KeysInv(tables, hash, threads[t := x])
  {
    assert Use(TheKeys, true);
    forall h | 0 <= h < |tables| ensures KeysOk(tables[h], h, hash, threads[t := x]) {
      assert KeysOk(tables[h], h, hash, threads) && Absent(tables[h], t);
      forall i | 0 <= i < Cap(tables[h]) && tables[h].keys[i].Some? ensures KeyOk(tables[h], h, i, tables[h].keys[i].value, hash, threads[t := x]) {
        assert KeyOk(tables[h], h, i, tables[h].keys[i].value, hash, threads);
      }
    }
  }

  lemma KeepAddTicket(s: State, t: nat)
    requires Inv(s) && Safe(s, t) && s.threads[t].pc.AddTicket?
    ensures Inv(AddTicketStep(s, t))
  {
    ThreadFacts(s, t);
    var n := if s.count >= 0 then s.count + 1 else 0;
    var x := s.threads[t].(pc := Check(s.threads[t].pc.main, n), ticket := Some(n));
    TicketsAdd(s.count, s.threads, t, x);
    KeysAbsent(s.tables, s.hash, s.threads, t, x);
    ThreadsOne(s.tables, s.hash, s.threads, t, x);
    FlagSame(s.locked, s.threads, t, x);
    ProducersSame(s.made, s.threads, t, x);
  }

  lemma KeepDrop(s: State, t: nat)
    requires Inv(s) && Safe(s, t) && s.threads[t].pc.Drop?
    ensures Inv(DropStep(s, t))
  {
    ThreadFacts(s, t);
    var x0 := s.threads[t];
    var x := if x0.pc.locked then x0.(ticket := None, pc := DropLock) else x0.(ticket := None, pc := Idle, result := Some(None));
    TicketsDrop(s.count, s.threads, t, x);
    KeysAbsent(s.tables, s.hash, s.threads, t, x);
    ThreadsOne(s.tables, s.hash, s.threads, t, x);
    FlagSame(s.locked, s.threads, t, x);
    ProducersSame(s.made, s.threads, t, x);
    assert DropStep(s, t) == Set(s.(count := s.count - 1), t, x);
  }

  // ---------------------------------------------------------------------------
  // The flag

  lemma FlagTake(threads: seq<Thread>, t: nat, x: Thread)
    requires FlagInv(false, threads) && t < |threads| && HoldsFlag(x.pc)
    ensures FlagInv(true, threads[t := x])
  {
    assert Use(TheFlag, true);
    assert forall v :: 0 <= v < |threads| ==> !HoldsFlag(threads[v].pc);
    assert HoldsFlag(threads[t := x][t].pc);
  }

  lemma FlagGive(locked: bool, threads: seq<Thread>, t: nat, x: Thread)
    requires FlagInv(locked, threads) && t < |threads| && HoldsFlag(threads[t].pc) && !HoldsFlag(x.pc)
    ensures FlagInv(false, threads[t := x])
  {
    assert Use(TheFlag, true);
    assert forall v :: 0 <= v < |threads| && v != t ==> !HoldsFlag(threads[v].pc);
  }

  /** A step that also sets or clears the flag. */
  lemma KeepFlag(s: State, t: nat, x: Thread, locked: bool)
    requires Inv(s) && t < |s.threads| && x.ticket == s.threads[t].ticket && x.reg == s.threads[t].reg
    requires !x.pc.Store? && !s.threads[t].pc.Store? && FlagInv(locked, s.threads[t := x])
    requires ProducerOf(x) == ProducerOf(s.threads[t]) && PcOk(s.tables, s.hash[t], x, t)
    requires x.result == s.threads[t].result || x.result == Some(x.reg)
    ensures Inv(Set(s.(locked := locked), t, x))
  {
    ThreadFacts(s, t);
    TicketsSame(s.count, s.threads, t, x);
    KeysThread(s.tables, s.hash, s.threads, t, x);
    ThreadsOne(s.tables, s.hash, s.threads, t, x);
    ProducersSame(s.made, s.threads, t, x);
  }

  lemma KeepCheck(s: State, t: nat)
    requires Inv(s) && Safe(s, t) && s.threads[t].pc.Check?
    ensures Inv(CheckStep(s, t))
  {
    ThreadFacts(s, t);
    var Check(main, n) := s.threads[t].pc;
    if n >= Cap(s.tables[main]) / 2 && !s.locked {
      var x := s.threads[t].(pc := Reload(n));
      FlagTake(s.threads, t, x);
      KeepFlag(s, t, x, true);
    } else {
      KeepMove(s, t, s.threads[t].(pc := Decide(main, n)));
    }
  }

  lemma KeepUnlock(s: State, t: nat)
    requires Inv(s) && Safe(s, t) && (s.threads[t].pc.Unlock? || s.threads[t].pc.DropLock?)
    ensures Inv(Step(s, t, true)) && Step(s, t, false) == Step(s, t, true)
  {
    ThreadFacts(s, t);
    var x0 := s.threads[t];
    var x := if x0.pc.Unlock? then x0.(pc := Decide(x0.pc.main, x0.pc.n)) else x0.(pc := Idle, result := Some(None));
    FlagGive(s.locked, s.threads, t, x);
    KeepFlag(s, t, x, false);
  }

  /** While one thread has the flag nobody else adds a table. */
  lemma OnlyHolder(s: State, t: nat, v: nat)
    requires Inv(s) && t < |s.threads| && v < |s.threads| && HoldsFlag(s.threads[t].pc) && HoldsFlag(s.threads[v].pc)
    ensures t == v
  {
    assert Use(TheFlag, true);
  }

  // ---------------------------------------------------------------------------
  // A larger table

  /** The doubling loop: the result is at least twice the capacity if that has no room below
      half, is reached by doubling, and the ticket is below half of it. */
  lemma {:induction false} DoubledRoom(n: nat, cap: nat)
    requires cap > 0
    ensures Doubled(n, cap) >= cap && n < Doubled(n, cap) / 2
    decreases if n >= cap / 2 then 2 * n + 2 - cap else 0
  {
    if n >= cap / 2 { DoubledRoom(n, 2 * cap); }
  }

  /** The loop that computes the capacity of the new table. */
  method NewCapacity(n: nat, capacity: nat) returns (cap: nat)
    requires capacity > 0
    ensures cap == Doubled(n, 2 * capacity)
    ensures cap >= 2 * capacity && n < cap / 2 && HasRoom(n, cap)
    ensures cap > 2 * capacity ==> n >= cap / 4
  {
    cap := 2 * capacity;
    while n >= cap / 2
      invariant cap >= 2 * capacity && Doubled(n, cap) == Doubled(n, 2 * capacity)
      invariant cap > 2 * capacity ==> n >= cap / 4
      decreases 2 * n + 2 - cap
    {
      cap := 2 * cap;
    }
  }

  lemma KeepReload(s: State, t: nat)
    requires Inv(s) && Safe(s, t) && s.threads[t].pc.Reload?
    ensures Inv(ReloadStep(s, t))
  {
    ThreadFacts(s, t);
    var n, main := s.threads[t].pc.n, |s.tables| - 1;
    if n >= Cap(s.tables[main]) / 2 { KeepMove(s, t, s.threads[t].(pc := Alloc(main, n))); }
    else { KeepMove(s, t, s.threads[t].(pc := Unlock(main, n))); }
  }

  lemma KeepAlloc(s: State, t: nat, ok: bool)
    requires Inv(s) && Safe(s, t) && s.threads[t].pc.Alloc?
    ensures Inv(AllocStep(s, t, ok))
  {
    ThreadFacts(s, t);
    var Alloc(main, n) := s.threads[t].pc;
    if ok {
      DoubledRoom(n, 2 * Cap(s.tables[main]));
      KeepMove(s, t, s.threads[t].(pc := Publish(main, n, Doubled(n, 2 * Cap(s.tables[main])))));
    } else {
      KeepMove(s, t, s.threads[t].(pc := Drop(true)));
    }
  }

  lemma EmptyKeys(cap: nat, h: nat, hash: seq<nat>, threads: seq<Thread>)
    requires cap > 0
    ensures KeysOk(EmptyTable(cap), h, hash, threads) && forall id: nat :: Absent(EmptyTable(cap), id)
  {
  }

  lemma KeysPublish(tables: seq<Table>, hash: seq<nat>, threads: seq<Thread>, cap: nat)
    requires KeysInv(tables, hash, threads) && cap > 0
    ensures KeysInv(tables + [EmptyTable(cap)], hash, threads)
  {
    assert Use(TheKeys, true);
    EmptyKeys(cap, |tables|, hash, threads);
  }

  /** Other threads do not notice an empty table at the end of the chain. */
  lemma PcPublish(tables: seq<Table>, hash: nat, x: Thread, id: nat, cap: nat)
    requires TablesInv(tables) && PcOk(tables, hash, x, id) && Registered(tables, x, id) && cap > Cap(tables[|tables| - 1])
    requires !x.pc.Alloc? && !x.pc.Publish?
    ensures TablesInv(tables + [EmptyTable(cap)])
    ensures PcOk(tables + [EmptyTable(cap)], hash, x, id) && Registered(tables + [EmptyTable(cap)], x, id)
  {
    TablesPublish(tables, cap);
    var after := tables + [EmptyTable(cap)];
    assert forall g :: 0 <= g < |tables| ==> after[g] == tables[g];
    RegisteredPublish(tables, x, id, cap);
    match x.pc
    case Search(_, _, _) =>
    case Probe(_, _, _) =>
    case Claim(_, _, _) =>
    case Store(_, _, _) =>
    case _ =>
  }

  lemma TablesPublish(tables: seq<Table>, cap: nat)
    requires TablesInv(tables) && cap > Cap(tables[|tables| - 1])
    ensures TablesInv(tables + [EmptyTable(cap)]) && forall id: nat :: Absent(EmptyTable(cap), id)
  {
  }

  lemma RegisteredPublish(tables: seq<Table>, x: Thread, id: nat, cap: nat)
    requires Registered(tables, x, id)
    ensures Registered(tables + [EmptyTable(cap)], x, id)
  {
    var after := tables + [EmptyTable(cap)];
    assert forall g :: 0 <= g < |tables| ==> after[g] == tables[g];
    if Somewhere(tables, id) {
      var g :| 0 <= g < |tables| && !Absent(tables[g], id);
      assert !Absent(after[g], id);
    }
  }

  lemma KeepPublish(s: State, t: nat)
    requires Inv(s) && Safe(s, t) && s.threads[t].pc.Publish?
    ensures Inv(PublishStep(s, t))
  {
    var Publish(main, n, cap) := s.threads[t].pc;
    ThreadFacts(s, t);
    var tables, x := s.tables + [EmptyTable(cap)], s.threads[t].(pc := Unlock(|s.tables|, n));
    PcPublish(s.tables, s.hash[t], s.threads[t].(pc := Drop(true)), t, cap);
    KeysPublish(s.tables, s.hash, s.threads, cap);
    KeysThread(tables, s.hash, s.threads, t, x);
    PublishThreads(s, t, x, cap);
    TicketsSame(s.count, s.threads, t, x);
    FlagSame(s.locked, s.threads, t, x);
    ProducersSame(s.made, s.threads, t, x);
  }

  lemma PublishThreads(s: State, t: nat, x: Thread, cap: nat)
    requires Inv(s) && t < |s.threads| && s.threads[t].pc.Publish? && cap > Cap(s.tables[|s.tables| - 1])
    requires TablesInv(s.tables + [EmptyTable(cap)])
    requires PcOk(s.tables + [EmptyTable(cap)], s.hash[t], x, t) && Registered(s.tables + [EmptyTable(cap)], x, t)
    ensures ThreadsInv(s.tables + [EmptyTable(cap)], s.hash, s.threads[t := x])
  {
    var after := s.threads[t := x];
    forall v | 0 <= v < |after|
      ensures PcOk(s.tables + [EmptyTable(cap)], s.hash[v], after[v], v) && Registered(s.tables + [EmptyTable(cap)], after[v], v)
    {
      if v != t {
        ThreadFacts(s, v);
        if HoldsFlag(s.threads[v].pc) { OnlyHolder(s, t, v); }
        PcPublish(s.tables, s.hash[v], s.threads[v], v, cap);
      }
    }
  }

  // ---------------------------------------------------------------------------
  // Creating a producer

  lemma ProducersNew(made: nat, threads: seq<Thread>, t: nat, x: Thread)
    requires ProducersInv(made, threads) && t < |threads| && ProducerOf(x) == Some(made)
    ensures ProducersInv(made + 1, threads[t := x])
  {
    assert Use(TheProducers, true);
    var after := threads[t := x];
    forall v | 0 <= v < |after| && ProducerOf(after[v]).Some? ensures ProducerOf(after[v]).value < made + 1 {
      if v != t { assert ProducerOf(threads[v]).value < made; }
    }
  }

  lemma KeepDecide(s: State, t: nat, ok: bool)
    requires Inv(s) && Safe(s, t) && s.threads[t].pc.Decide?
    ensures Inv(DecideStep(s, t, ok))
  {
    ThreadFacts(s, t);
    var Decide(main, n) := s.threads[t].pc;
    if !HasRoom(n, Cap(s.tables[main])) {
      KeepMove(s, t, s.threads[t].(pc := Again(n)));
    } else if !ok {
      KeepMove(s, t, s.threads[t].(pc := Drop(false)));
    } else {
      var x := s.threads[t].(pc := Probe(main, 0, s.made));
      TicketsSame(s.count, s.threads, t, x);
      KeysThread(s.tables, s.hash, s.threads, t, x);
      ThreadsOne(s.tables, s.hash, s.threads, t, x);
      FlagSame(s.locked, s.threads, t, x);
      ProducersNew(s.made, s.threads, t, x);
    }
  }

  // ---------------------------------------------------------------------------
  // Placing an id

  lemma KeepProbe(s: State, t: nat)
    requires Inv(s) && Safe(s, t) && s.threads[t].pc.Probe?
    ensures Inv(ProbeStep(s, t))
  {
    ThreadFacts(s, t);
    KeepMoveProbe(s, t, ProbeStep(s, t).threads[t]);
  }

  /** On to the compare-and-swap or to the next slot. */
  lemma KeepMoveProbe(s: State, t: nat, x: Thread)
    requires Inv(s) && Safe(s, t) && (s.threads[t].pc.Probe? || s.threads[t].pc.Claim?)
    requires var pc := s.threads[t].pc;
             || (x == s.threads[t].(pc := Claim(pc.main, pc.d, pc.p)))
             || (x == s.threads[t].(pc := Probe(pc.main, pc.d + 1, pc.p))
                 && s.tables[pc.main].keys[SlotAt(s.tables[pc.main], s.hash[t], pc.d)].Some?)
    ensures Inv(Set(s, t, x))
  {
    ThreadFacts(s, t);
    var pc := s.threads[t].pc;
    var key := s.tables[pc.main].keys[SlotAt(s.tables[pc.main], s.hash[t], pc.d)];
    assert KeyAt(s.tables[pc.main], s.hash[t], pc.d) == key;
    KeepMove(s, t, x);
  }

  /** A table in which an empty slot gets a key: what was taken stays taken. */
  lemma KeyAdded(table: Table, table': Table, hash: nat, i: nat, id: nat)
    requires i < Cap(table) && table.keys[i].None? && table' == table.(keys := table.keys[i := Some(id)])
    ensures forall e: nat :: SlotAt(table', hash, e) == SlotAt(table, hash, e)
    ensures forall e: nat :: KeyAt(table', hash, e) == if SlotAt(table, hash, e) == i then Some(id) else KeyAt(table, hash, e)
    ensures forall d: nat :: Taken(table, hash, d) ==> Taken(table', hash, d)
    ensures forall d, v: nat :: v != id && Passed(table, hash, d, v) ==> Passed(table', hash, d, v)
    ensures forall v: nat :: v != id && Absent(table, v) ==> Absent(table', v)
  {
    assert forall e: nat :: KeyAt(table', hash, e) == if SlotAt(table, hash, e) == i then Some(id) else KeyAt(table, hash, e);
  }

  lemma KeysClaim(table: Table, h: nat, hash: seq<nat>, threads: seq<Thread>, t: nat, x: Thread, d: nat)
    requires KeysOk(table, h, hash, threads) && t < |threads| == |hash| && Taken(table, hash[t], d) && d < Cap(table) && Absent(table, t)
    requires SlotAt(table, hash[t], d) < Cap(table) && table.keys[SlotAt(table, hash[t], d)].None?
    requires x.ticket.Some? && HasRoom(x.ticket.value, Cap(table)) && x.pc.Store? && x.pc.main == h && x.pc.d == d
    ensures KeysOk(table.(keys := table.keys[SlotAt(table, hash[t], d) := Some(t)]), h, hash, threads[t := x])
  {
    var i := SlotAt(table, hash[t], d);
    var table' := table.(keys := table.keys[i := Some(t)]);
    forall j | 0 <= j < Cap(table') && table'.keys[j].Some? ensures KeyOk(table', h, j, table'.keys[j].value, hash, threads[t := x]) {
      if j == i {
        KeyAdded(table, table', hash[t], i, t);
      } else {
        var id := table.keys[j].value;
        assert KeyOk(table, h, j, id, hash, threads);
        KeyAdded(table, table', hash[id], i, t);
      }
    }
  }

  /** The other tables: the claiming thread is going to store what they have. */
  lemma KeysElsewhere(table: Table, g: nat, hash: seq<nat>, threads: seq<Thread>, t: nat, x: Thread)
    requires KeysOk(table, g, hash, threads) && t < |threads| && x.ticket == threads[t].ticket && x.reg == threads[t].reg
    requires !threads[t].pc.Store? && x.pc.Store? && x.pc.main != g
    ensures KeysOk(table, g, hash, threads[t := x])
  {
    forall i | 0 <= i < Cap(table) && table.keys[i].Some? ensures KeyOk(table, g, i, table.keys[i].value, hash, threads[t := x]) {
      assert KeyOk(table, g, i, table.keys[i].value, hash, threads);
    }
  }

  /** Other threads when t's id is added to table h. */
  lemma PcClaim(tables: seq<Table>, tables': seq<Table>, hash: nat, x: Thread, v: nat, h: nat, i: nat, t: nat)
    requires TablesInv(tables) && PcOk(tables, hash, x, v) && Registered(tables, x, v) && v != t
    requires h < |tables| && i < Cap(tables[h]) && tables[h].keys[i].None?
    requires tables' == tables[h := tables[h].(keys := tables[h].keys[i := Some(t)])]
    ensures TablesInv(tables') && PcOk(tables', hash, x, v) && Registered(tables', x, v)
  {
    KeyAdded(tables[h], tables'[h], hash, i, t);
    assert forall g :: 0 <= g < |tables| && g != h ==> tables'[g] == tables[g];
    assert forall g :: 0 <= g < |tables| && Absent(tables[g], v) ==> Absent(tables'[g], v);
    if Somewhere(tables, v) { SomewhereStill(tables, tables', v, h, i, t); }
  }

  lemma SomewhereStill(tables: seq<Table>, tables': seq<Table>, v: nat, h: nat, i: nat, t: nat)
    requires Somewhere(tables, v) && h < |tables| && i < Cap(tables[h]) && tables[h].keys[i].None?
    requires tables' == tables[h := tables[h].(keys := tables[h].keys[i := Some(t)])]
    ensures Somewhere(tables', v)
  {
    var g :| 0 <= g < |tables| && !Absent(tables[g], v);
    var j :| 0 <= j < Cap(tables[g]) && tables[g].keys[j] == Some(v);
    assert tables'[g].keys[j] == Some(v);
  }

  lemma ClaimedPc(s: State, t: nat, i: nat, tables': seq<Table>, x: Thread)
    requires Inv(s) && Safe(s, t) && s.threads[t].pc.Claim?
    requires var pc := s.threads[t].pc;
             && i == SlotAt(s.tables[pc.main], s.hash[t], pc.d) && s.tables[pc.main].keys[i].None?
             && tables' == s.tables[pc.main := s.tables[pc.main].(keys := s.tables[pc.main].keys[i := Some(t)])]
             && x == s.threads[t].(pc := Store(pc.main, pc.d, pc.p))
    ensures TablesInv(tables') && PcOk(tables', s.hash[t], x, t) && Registered(tables', x, t)
  {
    var Claim(main, d, p) := s.threads[t].pc;
    ThreadFacts(s, t);
    KeyAdded(s.tables[main], tables'[main], s.hash[t], i, t);
    assert tables'[main].keys[i] == Some(t);
    assert forall g :: 0 <= g < |s.tables| && g != main ==> tables'[g] == s.tables[g];
  }

  lemma ClaimThreads(s: State, t: nat, h: nat, i: nat, tables': seq<Table>, x: Thread)
    requires Inv(s) && t < |s.threads| && h < |s.tables| && i < Cap(s.tables[h]) && s.tables[h].keys[i].None?
    requires tables' == s.tables[h := s.tables[h].(keys := s.tables[h].keys[i := Some(t)])]
    requires TablesInv(tables') && PcOk(tables', s.hash[t], x, t) && Registered(tables', x, t)
    ensures ThreadsInv(tables', s.hash, s.threads[t := x])
  {
    var after := s.threads[t := x];
    forall v | 0 <= v < |after| ensures PcOk(tables', s.hash[v], after[v], v) && Registered(tables', after[v], v) {
      if v != t {
        ThreadFacts(s, v);
        PcClaim(s.tables, tables', s.hash[v], s.threads[v], v, h, i, t);
      }
    }
  }

  lemma ClaimKeys(s: State, t: nat, tables': seq<Table>, x: Thread)
    requires Inv(s) && Safe(s, t) && s.threads[t].pc.Claim?
    requires var pc := s.threads[t].pc;
             var i := SlotAt(s.tables[pc.main], s.hash[t], pc.d);
             && s.tables[pc.main].keys[i].None?
             && tables' == s.tables[pc.main := s.tables[pc.main].(keys := s.tables[pc.main].keys[i := Some(t)])]
             && x == s.threads[t].(pc := Store(pc.main, pc.d, pc.p))
    ensures KeysInv(tables', s.hash, s.threads[t := x])
  {
    var Claim(main, d, p) := s.threads[t].pc;
    ThreadFacts(s, t);
    TableFacts(s, main);
    ProbeBound(s.tables[main], main, s.hash, s.count, s.threads, s.hash[t], d);
    forall g | 0 <= g < |tables'| ensures KeysOk(tables'[g], g, s.hash, s.threads[t := x]) {
      TableFacts(s, g);
      if g == main { KeysClaim(s.tables[main], main, s.hash, s.threads, t, x, d); }
      else { KeysElsewhere(s.tables[g], g, s.hash, s.threads, t, x); }
    }
  }

  lemma KeepClaim(s: State, t: nat)
    requires Inv(s) && Safe(s, t) && s.threads[t].pc.Claim?
    ensures Inv(ClaimStep(s, t))
  {
    var Claim(main, d, p) := s.threads[t].pc;
    var i := SlotAt(s.tables[main], s.hash[t], d);
    if s.tables[main].keys[i].None? {
      var tables' := s.tables[main := s.tables[main].(keys := s.tables[main].keys[i := Some(t)])];
      var x := s.threads[t].(pc := Store(main, d, p));
      ClaimedPc(s, t, i, tables', x);
      ClaimThreads(s, t, main, i, tables', x);
      ClaimKeys(s, t, tables', x);
      TicketsSame(s.count, s.threads, t, x);
      FlagSame(s.locked, s.threads, t, x);
      ProducersSame(s.made, s.threads, t, x);
    } else {
      KeepMoveProbe(s, t, s.threads[t].(pc := Probe(main, d + 1, p)));
    }
  }

  // ---------------------------------------------------------------------------
  // Storing the producer

  /** Only the thread that has the key stores its value. */
  lemma KeysStore(table: Table, h: nat, hash: seq<nat>, threads: seq<Thread>, t: nat, x: Thread, i: nat)
    requires KeysOk(table, h, hash, threads) && t < |threads| && AtStore(threads[t].pc, h) && i < Cap(table) && table.keys[i] == Some(t)
    requires x.ticket == threads[t].ticket && x.reg == Some(threads[t].pc.p) && !x.pc.Store?
    ensures KeysOk(table.(values := table.values[i := x.reg]), h, hash, threads[t := x])
  {
    var table' := table.(values := table.values[i := x.reg]);
    forall j | 0 <= j < Cap(table') && table'.keys[j].Some? ensures KeyOk(table', h, j, table'.keys[j].value, hash, threads[t := x]) {
      var id := table.keys[j].value;
      assert KeyOk(table, h, j, id, hash, threads) && KeyOk(table, h, i, t, hash, threads);
      SameKeys(table, table', hash[id]);
    }
  }

  lemma SameKeys(table: Table, table': Table, hash: nat)
    requires Cap(table) > 0 && table'.keys == table.keys
    ensures forall e: nat :: SlotAt(table', hash, e) == SlotAt(table, hash, e) && KeyAt(table', hash, e) == KeyAt(table, hash, e)
    ensures forall d: nat :: Taken(table', hash, d) <==> Taken(table, hash, d)
    ensures forall d, v: nat :: Passed(table', hash, d, v) <==> Passed(table, hash, d, v)
  {
    assert forall e: nat :: KeyAt(table', hash, e) == KeyAt(table, hash, e);
  }

  lemma KeysStored(table: Table, g: nat, hash: seq<nat>, threads: seq<Thread>, t: nat, x: Thread)
    requires KeysOk(table, g, hash, threads) && t < |threads| && threads[t].pc.Store? && threads[t].pc.main != g
    requires x.ticket == threads[t].ticket && !x.pc.Store? && (Absent(table, t) || x.reg == threads[t].reg)
    ensures KeysOk(table, g, hash, threads[t := x])
  {
    forall i | 0 <= i < Cap(table) && table.keys[i].Some? ensures KeyOk(table, g, i, table.keys[i].value, hash, threads[t := x]) {
      assert KeyOk(table, g, i, table.keys[i].value, hash, threads);
    }
  }

  lemma PcValues(tables: seq<Table>, h: nat, values: seq<Option<nat>>, hash: nat, x: Thread, v: nat)
    requires TablesInv(tables) && PcOk(tables, hash, x, v) && Registered(tables, x, v) && h < |tables| && |values| == |tables[h].values|
    ensures var after := tables[h := tables[h].(values := values)];
            TablesInv(after) && PcOk(after, hash, x, v) && Registered(after, x, v)
  {
    var after := tables[h := tables[h].(values := values)];
    SameKeys(tables[h], after[h], hash);
    assert forall g :: 0 <= g < |tables| ==> after[g].keys == tables[g].keys;
    assert forall g, w: nat :: 0 <= g < |tables| ==> (Absent(after[g], w) <==> Absent(tables[g], w));
  }

  lemma StoreKeys(s: State, t: nat, i: nat, tables': seq<Table>, x: Thread)
    requires Inv(s) && Safe(s, t) && s.threads[t].pc.Store?
    requires var Store(main, d, p) := s.threads[t].pc;
             && i == SlotAt(s.tables[main], s.hash[t], d)
             && tables' == s.tables[main := s.tables[main].(values := s.tables[main].values[i := Some(p)])]
             && x == s.threads[t].(pc := Idle, reg := Some(p), result := Some(Some(p)))
    ensures KeysInv(tables', s.hash, s.threads[t := x])
  {
    var Store(main, d, p) := s.threads[t].pc;
    ThreadFacts(s, t);
    assert KeyAt(s.tables[main], s.hash[t], d) == Some(t);
    forall g | 0 <= g < |tables'| ensures KeysOk(tables'[g], g, s.hash, s.threads[t := x]) {
      TableFacts(s, g);
      if g == main { KeysStore(s.tables[main], main, s.hash, s.threads, t, x, i); }
      else { KeysStored(s.tables[g], g, s.hash, s.threads, t, x); }
    }
  }

  lemma StoreThreads(s: State, t: nat, i: nat, tables': seq<Table>, x: Thread)
    requires Inv(s) && Safe(s, t) && s.threads[t].pc.Store?
    requires var Store(main, d, p) := s.threads[t].pc;
             && i == SlotAt(s.tables[main], s.hash[t], d)
             && tables' == s.tables[main := s.tables[main].(values := s.tables[main].values[i := Some(p)])]
             && x == s.threads[t].(pc := Idle, reg := Some(p), result := Some(Some(p)))
    ensures TablesInv(tables') && ThreadsInv(tables', s.hash, s.threads[t := x])
  {
    var Store(main, d, p) := s.threads[t].pc;
    var after, values := s.threads[t := x], s.tables[main].values[i := Some(p)];
    ThreadFacts(s, t);
    TableFacts(s, main);
    assert KeyAt(s.tables[main], s.hash[t], d) == Some(t);
    assert KeyOk(s.tables[main], main, i, t, s.hash, s.threads);
    assert !Absent(s.tables[main], t);
    PcValues(s.tables, main, values, s.hash[t], x, t);
    forall v | 0 <= v < |after| ensures PcOk(tables', s.hash[v], after[v], v) && Registered(tables', after[v], v) {
      if v != t {
        ThreadFacts(s, v);
        PcValues(s.tables, main, values, s.hash[v], s.threads[v], v);
      }
    }
  }

  lemma KeepStore(s: State, t: nat)
    requires Inv(s) && Safe(s, t) && s.threads[t].pc.Store?
    ensures Inv(StoreStep(s, t))
  {
    var Store(main, d, p) := s.threads[t].pc;
    var i := SlotAt(s.tables[main], s.hash[t], d);
    var tables' := s.tables[main := s.tables[main].(values := s.tables[main].values[i := Some(p)])];
    var x := s.threads[t].(pc := Idle, reg := Some(p), result := Some(Some(p)));
    StoreKeys(s, t, i, tables', x);
    StoreThreads(s, t, i, tables', x);
    TicketsSame(s.count, s.threads, t, x);
    FlagSame(s.locked, s.threads, t, x);
    ProducersSame(s.made, s.threads, t, x);
  }

  // ---------------------------------------------------------------------------
  // Runs

  lemma InvSafe(s: State, t: nat)
    requires Inv(s) && t < |s.threads|
    ensures Safe(s, t)
  {
    ThreadFacts(s, t);
    var pc := s.threads[t].pc;
    if pc.Search? { SlotBound(s.tables[pc.h], s.hash[t], pc.d); }
    if pc.Probe? || pc.Claim? || pc.Store? { SlotBound(s.tables[pc.main], s.hash[t], pc.d); }
  }

  lemma StepKeeps(s: State, t: nat, ok: bool)
    requires Inv(s)
    ensures Inv(Step(s, t, ok))
  {
    if Safe(s, t) {
      ThreadFacts(s, t);
      match s.threads[t].pc
      case Idle => KeepMove(s, t, s.threads[t].(pc := Search(|s.tables| - 1, |s.tables| - 1, 0)));
      case Search(main, h, d) =>
        if s.tables[h].keys[SlotAt(s.tables[h], s.hash[t], d)] == Some(t) { KeepSearchFound(s, t); } else { KeepSearchOn(s, t); }
      case AddTicket(_) => KeepAddTicket(s, t);
      case Check(_, _) => KeepCheck(s, t);
      case Reload(_) => KeepReload(s, t);
      case Alloc(_, _) => KeepAlloc(s, t, ok);
      case Publish(_, _, _) => KeepPublish(s, t);
      case Unlock(_, _) => KeepUnlock(s, t);
      case Decide(_, _) => KeepDecide(s, t, ok);
      case Again(n) => KeepMove(s, t, s.threads[t].(pc := Check(|s.tables| - 1, n)));
      case Probe(_, _, _) => KeepProbe(s, t);
      case Claim(_, _, _) => KeepClaim(s, t);
      case Store(_, _, _) => KeepStore(s, t);
      case Drop(_) => KeepDrop(s, t);
      case DropLock => KeepUnlock(s, t);
    }
  }

  /** populate_initial_implicit_producer_hash: one empty table. */
  ghost predicate Init(s: State)
  {
    && |s.tables| == 1 && Cap(s.tables[0]) > 0 && s.tables[0] == EmptyTable(Cap(s.tables[0]))
    && s.count == 0 && !s.locked && s.made == 0 && |s.hash| == |s.threads|
    && forall t :: 0 <= t < |s.threads| ==> s.threads[t] == Thread(Idle, None, None, None)
  }

  datatype Action = Action(thread: nat, ok: bool)

  ghost function Run(s: State, actions: seq<Action>): State
    decreases |actions|
  {
    if |actions| == 0 then s
    else Step(Run(s, actions[..|actions| - 1]), actions[|actions| - 1].thread, actions[|actions| - 1].ok)
  }

  ghost predicate Reachable(s: State) { exists s0, actions :: Init(s0) && s == Run(s0, actions) }

  lemma InitInvariant(s: State)
    requires Init(s)
    ensures Inv(s)
  {
    assert TablesInv(s.tables);
    SumZero(s.threads, HasTicket);
    forall n: nat ensures Sum(s.threads, UpToFn(n)) <= n { SumZero(s.threads, UpToFn(n)); }
    EmptyKeys(Cap(s.tables[0]), 0, s.hash, s.threads);
    assert KeysInv(s.tables, s.hash, s.threads);
  }

  lemma {:induction false} RunInvariant(s: State, actions: seq<Action>)
    requires Init(s)
    ensures Inv(Run(s, actions))
    decreases |actions|
  {
    if |actions| == 0 {
      InitInvariant(s);
    } else {
      var n := |actions| - 1;
      RunInvariant(s, actions[..n]);
      StepKeeps(Run(s, actions[..n]), actions[n].thread, actions[n].ok);
    }
  }

  lemma ReachableInvariant(s: State)
    requires Reachable(s)
    ensures Inv(s)
  {
    var s0, actions :| Init(s0) && s == Run(s0, actions);
    RunInvariant(s0, actions);
  }

  /** Every access is to a table and slot that exist. */
  lemma NeverFaults(s: State, t: nat)
    requires Reachable(s) && t < |s.threads|
    ensures Safe(s, t)
  {
    ReachableInvariant(s);
    InvSafe(s, t);
  }

  /** Neither out of memory nor about to say so. */
  predicate Fine(x: Thread) { !x.pc.Drop? && !x.pc.DropLock? && x.result != Some(None) }

  /** Null is returned only if memory is short: if every allocation succeeds, no call fails. */
  lemma {:induction false} FailsOnlyWithoutMemory(s: State, actions: seq<Action>)
    requires Init(s) && forall i :: 0 <= i < |actions| ==> actions[i].ok
    ensures forall t :: 0 <= t < |Run(s, actions).threads| ==> Fine(Run(s, actions).threads[t])
    decreases |actions|
  {
    if |actions| > 0 {
      var n := |actions| - 1;
      var s1 := Run(s, actions[..n]);
      FailsOnlyWithoutMemory(s, actions[..n]);
      RunInvariant(s, actions[..n]);
      if Safe(s1, actions[n].thread) { FineStep(s1, actions[n].thread); }
    }
  }

  lemma FineStep(s: State, t: nat)
    requires Inv(s) && Safe(s, t) && Fine(s.threads[t])
    ensures var s' := Step(s, t, true); |s'.threads| == |s.threads| && s'.threads == s.threads[t := s'.threads[t]] && Fine(s'.threads[t])
  {
    if s.threads[t].pc.Search? {
      var Search(main, h, d) := s.threads[t].pc;
      var i := SlotAt(s.tables[h], s.hash[t], d);
      if s.tables[h].keys[i] == Some(t) { FoundValue(s, t, h, i); }
    }
  }

  /** The tables agree with the plain map from threads to producers: a thread that has a
      producer is in some table, one that has none is in no table (unless it is about to
      store its first); wherever its id is, its producer is stored; and the last finished call
      of a thread that has a producer returned it, also when memory was short meanwhile. */
  lemma AgreesWithMap(s: State, t: nat)
    requires Reachable(s) && t < |s.threads|
    ensures s.threads[t].reg.Some? ==> Somewhere(s.tables, t) && s.threads[t].result == Some(s.threads[t].reg)
    ensures s.threads[t].reg.None? ==> s.threads[t].result == None || s.threads[t].result == Some(None)
    ensures s.threads[t].reg.None? && !s.threads[t].pc.Store? ==> !Somewhere(s.tables, t)
    ensures forall h, i :: 0 <= h < |s.tables| && 0 <= i < Cap(s.tables[h]) && s.tables[h].keys[i] == Some(t) && !s.threads[t].pc.Store? ==>
              s.threads[t].reg.Some? && |s.tables[h].values| == Cap(s.tables[h]) && s.tables[h].values[i] == s.threads[t].reg
  {
    ReachableInvariant(s);
    ThreadFacts(s, t);
    forall h, i | 0 <= h < |s.tables| && 0 <= i < Cap(s.tables[h]) && s.tables[h].keys[i] == Some(t) && !s.threads[t].pc.Store?
      ensures s.threads[t].reg.Some? && |s.tables[h].values| == Cap(s.tables[h]) && s.tables[h].values[i] == s.threads[t].reg
    {
      FoundValue(s, t, h, i);
    }
  }

  /** A registered thread always gets the same producer: however the run goes on, with any
      allocations failing, it keeps its producer, and every call it finishes returns it. */
  lemma {:induction false} KeepsProducer(s: State, t: nat, actions: seq<Action>)
    requires Reachable(s) && t < |s.threads| && s.threads[t].reg.Some?
    ensures var s' := Run(s, actions);
            t < |s'.threads| && s'.threads[t].reg == s.threads[t].reg && s'.threads[t].result == Some(s.threads[t].reg)
    ensures Inv(Run(s, actions))
    decreases |actions|
  {
    if |actions| == 0 {
      ReachableInvariant(s);
      ThreadFacts(s, t);
    } else {
      var n := |actions| - 1;
      var s1 := Run(s, actions[..n]);
      KeepsProducer(s, t, actions[..n]);
      ThreadFacts(s1, t);
      StepReg(s1, t, actions[n]);
      StepKeeps(s1, actions[n].thread, actions[n].ok);
      ThreadFacts(Run(s, actions), t);
    }
  }

  lemma StepReg(s: State, t: nat, a: Action)
    requires t < |s.threads| && s.threads[t].reg.Some? && (s.threads[t].pc.Store? ==> s.threads[t].reg == Some(s.threads[t].pc.p))
    ensures var s' := Step(s, a.thread, a.ok); t < |s'.threads| && s'.threads[t].reg == s.threads[t].reg
  {
    if Safe(s, a.thread) {
      match s.threads[a.thread].pc
      case Search(_, _, _) =>
      case Store(_, _, _) =>
      case _ =>
    }
  }

  /** Two threads never share a producer. */
  lemma ProducersDiffer(s: State, t: nat, v: nat)
    requires Reachable(s) && t < |s.threads| && v < |s.threads| && t != v && s.threads[t].reg.Some? && s.threads[v].reg.Some?
    ensures s.threads[t].reg != s.threads[v].reg
  {
    ReachableInvariant(s);
    assert Use(TheProducers, true);
    ThreadFacts(s, t);
    ThreadFacts(s, v);
    assert ProducerOf(s.threads[t]) == s.threads[t].reg && ProducerOf(s.threads[v]) == s.threads[v].reg;
  }

  /** Every table always has an empty slot. */
  lemma TablesKeepEmptySlot(s: State, h: nat) returns (i: nat)
    requires Reachable(s) && h < |s.tables|
    ensures i < Cap(s.tables[h]) && s.tables[h].keys[i].None?
  {
    ReachableInvariant(s);
    TableFacts(s, h);
    i := EmptySlot(s.tables[h], h, s.hash, s.count, s.threads);
  }

  /** So all probe loops end: no probe gets as far as the capacity of the table. */
  lemma ProbesEnd(s: State, t: nat)
    requires Reachable(s) && t < |s.threads|
    ensures var pc := s.threads[t].pc; pc.Search? ==> pc.h < |s.tables| && pc.d < Cap(s.tables[pc.h])
    ensures var pc := s.threads[t].pc; pc.Probe? || pc.Claim? ==> pc.main < |s.tables| && pc.d < Cap(s.tables[pc.main])
  {
    ReachableInvariant(s);
    ThreadFacts(s, t);
    var pc := s.threads[t].pc;
    if pc.Search? {
      TableFacts(s, pc.h);
      ProbeBound(s.tables[pc.h], pc.h, s.hash, s.count, s.threads, s.hash[t], pc.d);
    }
    if pc.Probe? || pc.Claim? {
      TableFacts(s, pc.main);
      ProbeBound(s.tables[pc.main], pc.main, s.hash, s.count, s.threads, s.hash[t], pc.d);
    }
  }

  // ---------------------------------------------------------------------------
  // The outcome of a call

  /** `actions` take thread t from s through one whole call, with steps of the others in
      between. */
  ghost predicate IsCall(s: State, actions: seq<Action>, t: nat)
  {
    && Begun(s, actions, t) && Free(Run(s, actions), t)
    && (forall k :: 0 < k < |actions| ==> !Free(Run(s, actions[..k]), t))
  }

  ghost predicate Begun(s: State, actions: seq<Action>, t: nat)
  {
    Free(s, t) && |actions| > 0 && actions[0].thread == t
  }

  predicate Free(s: State, t: nat) { t < |s.threads| && s.threads[t].pc.Idle? }

  /** Thread t asks for memory, for a larger table or for its producer, and gets none. */
  predicate Refused(s: State, t: nat, a: Action)
  {
    && a.thread == t && !a.ok && t < |s.threads|
    && (|| s.threads[t].pc.Alloc?
        || (s.threads[t].pc.Decide? && s.threads[t].pc.main < |s.tables| && HasRoom(s.threads[t].pc.n, Cap(s.tables[s.threads[t].pc.main]))))
  }

  /** One of the steps was such a refusal. */
  ghost predicate WasRefused(s: State, actions: seq<Action>, t: nat)
    decreases |actions|
  {
    |actions| > 0
    && var n := |actions| - 1; WasRefused(s, actions[..n], t) || Refused(Run(s, actions[..n]), t, actions[n])
  }

  predicate Doomed(pc: PC) { pc.Drop? || pc.DropLock? }

  /** The table a call works on is the newest at its beginning or a newer one. */
  predicate WorksFrom(pc: PC, newest: nat)
  {
    match pc
    case Idle => true
    case Search(main, _, _) => main >= newest
    case AddTicket(main) => main >= newest
    case Check(main, _) => main >= newest
    case Reload(_) => true
    case Alloc(main, _) => main >= newest
    case Publish(main, _, _) => main >= newest
    case Unlock(main, _) => main >= newest
    case Decide(main, _) => main >= newest
    case Again(_) => true
    case Probe(main, _, _) => main >= newest
    case Claim(main, _, _) => main >= newest
    case Store(main, _, _) => main >= newest
    case Drop(_) => true
    case DropLock => true
  }

  /** The id is in a table that was not replaced before the call began. */
  ghost predicate InNewest(s: State, t: nat, newest: nat)
  {
    exists h :: newest <= h < |s.tables| && !Absent(s.tables[h], t)
  }

  ghost predicate SoFar(s: State, t: nat, newest: nat, refused: bool)
  {
    && t < |s.threads| && !s.threads[t].pc.Idle? && newest < |s.tables|
    && WorksFrom(s.threads[t].pc, newest) && (Doomed(s.threads[t].pc) <==> refused)
  }

  /** The call returns null if and only if it was refused memory; otherwise the producer of its
      thread, which is then registered in a table as new as the newest when it began. */
  ghost predicate Outcome(s: State, t: nat, newest: nat, refused: bool)
  {
    && t < |s.threads|
    && if refused then s.threads[t].result == Some(None)
       else s.threads[t].reg.Some? && s.threads[t].result == Some(s.threads[t].reg) && InNewest(s, t, newest)
  }

  lemma CallStep(s: State, t: nat, newest: nat, refused: bool, a: Action)
    requires Inv(s) && SoFar(s, t, newest, refused)
    ensures var s' := Step(s, a.thread, a.ok);
            if Free(s', t) then Outcome(s', t, newest, refused || Refused(s, t, a)) else SoFar(s', t, newest, refused || Refused(s, t, a))
  {
    if a.thread != t { OtherStep(s, t, a); }
    else {
      InvSafe(s, t);
      ThreadFacts(s, t);
      if s.threads[t].pc.Search? { OwnSearch(s, t, newest); } else if s.threads[t].pc.Store? { OwnStore(s, t, newest); }
      else { OwnStep(s, t, newest, refused, a); }
    }
  }

  lemma OtherStep(s: State, t: nat, a: Action)
    requires t < |s.threads| && a.thread != t
    ensures var s' := Step(s, a.thread, a.ok); t < |s'.threads| && s'.threads[t] == s.threads[t] && |s'.tables| >= |s.tables|
  {
    if Safe(s, a.thread) && (s.threads[a.thread].pc.Search? || s.threads[a.thread].pc.Store? || s.threads[a.thread].pc.Claim?) {
      OtherTables(s, t, a.thread);
    }
  }

  lemma OtherTables(s: State, t: nat, u: nat)
    requires t < |s.threads| && u != t && Safe(s, u) && (s.threads[u].pc.Search? || s.threads[u].pc.Store? || s.threads[u].pc.Claim?)
    ensures s.threads[u].pc.Search? ==> var s' := SearchStep(s, u); t < |s'.threads| && s'.threads[t] == s.threads[t] && s'.tables == s.tables
    ensures s.threads[u].pc.Claim? ==> var s' := ClaimStep(s, u); t < |s'.threads| && s'.threads[t] == s.threads[t] && |s'.tables| == |s.tables|
    ensures s.threads[u].pc.Store? ==> var s' := StoreStep(s, u); t < |s'.threads| && s'.threads[t] == s.threads[t] && |s'.tables| == |s.tables|
  {
  }

  /** The id is found: in the newest table, or in an older one and then still to be copied. */
  lemma OwnSearch(s: State, t: nat, newest: nat)
    requires Inv(s) && Safe(s, t) && SoFar(s, t, newest, false) && s.threads[t].pc.Search?
    ensures var s' := SearchStep(s, t);
            if Free(s', t) then Outcome(s', t, newest, false) else SoFar(s', t, newest, false)
  {
    var Search(main, h, d) := s.threads[t].pc;
    ThreadFacts(s, t);
    var i := SlotAt(s.tables[h], s.hash[t], d);
    if s.tables[h].keys[i] == Some(t) {
      FoundValue(s, t, h, i);
      assert !Absent(s.tables[h], t);
    }
  }

  lemma OwnStore(s: State, t: nat, newest: nat)
    requires Inv(s) && Safe(s, t) && SoFar(s, t, newest, false) && s.threads[t].pc.Store?
    ensures Outcome(StoreStep(s, t), t, newest, false)
  {
    var Store(main, d, p) := s.threads[t].pc;
    ThreadFacts(s, t);
    var i := SlotAt(s.tables[main], s.hash[t], d);
    assert s.tables[main].keys[i] == Some(t);
    assert StoreStep(s, t).tables[main].keys[i] == Some(t);
  }

  /** All other steps of the call. */
  lemma OwnStep(s: State, t: nat, newest: nat, refused: bool, a: Action)
    requires Safe(s, t) && SoFar(s, t, newest, refused) && !s.threads[t].pc.Search? && !s.threads[t].pc.Store? && a.thread == t
    ensures var s' := Step(s, t, a.ok);
            if Free(s', t) then Outcome(s', t, newest, refused || Refused(s, t, a)) else SoFar(s', t, newest, refused || Refused(s, t, a))
  {
    match s.threads[t].pc
    case Claim(_, _, _) =>
    case Probe(_, _, _) =>
    case Decide(_, _) =>
    case Alloc(_, _) =>
    case Drop(_) =>
    case _ =>
  }

  lemma {:induction false} RunKeeps(s: State, actions: seq<Action>)
    requires Inv(s)
    ensures Inv(Run(s, actions))
    decreases |actions|
  {
    if |actions| > 0 {
      var n := |actions| - 1;
      RunKeeps(s, actions[..n]);
      StepKeeps(Run(s, actions[..n]), actions[n].thread, actions[n].ok);
    }
  }

  lemma FirstStep(s: State, actions: seq<Action>, t: nat)
    requires Inv(s) && Begun(s, actions, t) && |actions| == 1
    ensures SoFar(Run(s, actions), t, |s.tables| - 1, WasRefused(s, actions, t))
  {
    assert Run(s, actions[..0]) == s;
    InvSafe(s, t);
  }

  lemma {:induction false} CallSoFar(s: State, actions: seq<Action>, t: nat)
    requires Inv(s) && Begun(s, actions, t) && forall k :: 0 < k < |actions| ==> !Free(Run(s, actions[..k]), t)
    ensures var s' := Run(s, actions);
            if Free(s', t) then Outcome(s', t, |s.tables| - 1, WasRefused(s, actions, t))
            else SoFar(s', t, |s.tables| - 1, WasRefused(s, actions, t))
    decreases |actions|
  {
    var n := |actions| - 1;
    if n == 0 {
      FirstStep(s, actions, t);
    } else {
      forall k | 0 < k <= n ensures actions[..n][..k] == actions[..k] {}
      CallSoFar(s, actions[..n], t);
      RunKeeps(s, actions[..n]);
      CallStep(Run(s, actions[..n]), t, |s.tables| - 1, WasRefused(s, actions[..n], t), actions[n]);
    }
  }

  /** In every run, whatever the others do and whatever they are refused: a call returns null if
      and only if the call itself was refused memory, for a larger table or for its producer.
      Otherwise it returns the producer of its thread, which is then registered in the table
      that was the newest when the call began, or in a newer one. */
  lemma CallOutcome(s: State, actions: seq<Action>, t: nat)
    requires Reachable(s) && IsCall(s, actions, t)
    ensures |s.tables| > 0 && Outcome(Run(s, actions), t, |s.tables| - 1, WasRefused(s, actions, t))
  {
    ReachableInvariant(s);
    CallSoFar(s, actions, t);
  }

  // ---------------------------------------------------------------------------
  // Calls go on

  /** How far a call is: searching, getting a ticket and a table, out of memory, or placing. */
  function Phase(pc: PC): nat
  {
    match pc
    case Idle => 0
    case Search(_, _, _) => 4
    case Probe(_, _, _) => 2
    case Claim(_, _, _) => 2
    case Store(_, _, _) => 1
    case Drop(_) => 2
    case DropLock => 1
    case _ => 3
  }

  /** Slots left to probe in table h and all older ones. */
  ghost function SlotsLeft(tables: seq<Table>, h: nat, d: nat): int
    requires h < |tables|
  {
    if h == 0 then Cap(tables[0]) - d else Cap(tables[h]) - d + SlotsLeft(tables, h - 1, 0)
  }

  /** Steps left in the phase, at most. */
  ghost function Left(tables: seq<Table>, pc: PC): int
  {
    match pc
    case Search(_, h, d) => if h < |tables| then SlotsLeft(tables, h, d) else 0
    case AddTicket(_) => 7
    case Again(_) => 7
    case Check(_, _) => 6
    case Reload(_) => 5
    case Alloc(_, _) => 4
    case Publish(_, _, _) => 3
    case Unlock(_, _) => 2
    case Decide(_, _) => 1
    case Probe(main, d, _) => if main < |tables| then 2 * (Cap(tables[main]) - d) else 0
    case Claim(main, d, _) => if main < |tables| then 2 * (Cap(tables[main]) - d) - 1 else 0
    case _ => 0
  }

  /** From s to s' thread t gets to a later phase, or nearer to the end of its phase. */
  ghost predicate Onward(s: State, s': State, t: nat)
    requires t < |s.threads|
  {
    && t < |s'.threads|
    && var pc, pc' := s.threads[t].pc, s'.threads[t].pc;
       Phase(pc') < Phase(pc) || (Phase(pc') == Phase(pc) && Left(s'.tables, pc') < Left(s.tables, pc))
  }

  predicate NoRoom(s: State, pc: PC)
  {
    pc.Decide? && pc.main < |s.tables| && !HasRoom(pc.n, Cap(s.tables[pc.main]))
  }

  /** Each step of a thread in a call brings it to a later phase, or nearer to the end of its
      phase; only a thread whose table has no room goes back, to look again for a larger one. */
  lemma CallGoesOn(s: State, t: nat, ok: bool)
    requires Reachable(s) && t < |s.threads| && !s.threads[t].pc.Idle?
    ensures Left(s.tables, s.threads[t].pc) >= 0
    ensures if NoRoom(s, s.threads[t].pc) then t < |Step(s, t, ok).threads| && Step(s, t, ok).threads[t].pc == Again(s.threads[t].pc.n)
            else Onward(s, Step(s, t, ok), t)
  {
    NeverFaults(s, t);
    ProbesEnd(s, t);
    var pc := s.threads[t].pc;
    if pc.Search? {
      SlotsPositive(s.tables, pc.h, pc.d);
      OneSlotOn(s, t);
    } else if pc.Claim? {
      ClaimOn(s, t);
    } else if pc.Store? {
      StoreOn(s, t);
    } else if pc.Probe? || pc.Drop? || pc.DropLock? {
      ProbeOn(s, t, ok);
    } else {
      TicketOn(s, t, ok);
    }
  }

  lemma StoreOn(s: State, t: nat)
    requires Safe(s, t) && s.threads[t].pc.Store?
    ensures Onward(s, StoreStep(s, t), t)
  {
  }

  lemma ProbeOn(s: State, t: nat, ok: bool)
    requires Safe(s, t) && (s.threads[t].pc.Probe? || s.threads[t].pc.Drop? || s.threads[t].pc.DropLock?)
    ensures Onward(s, Step(s, t, ok), t)
  {
  }

  lemma TicketOn(s: State, t: nat, ok: bool)
    requires Safe(s, t) && Phase(s.threads[t].pc) == 3
    ensures if NoRoom(s, s.threads[t].pc) then t < |Step(s, t, ok).threads| && Step(s, t, ok).threads[t].pc == Again(s.threads[t].pc.n)
            else Onward(s, Step(s, t, ok), t)
  {
  }

  lemma {:induction false} SlotsPositive(tables: seq<Table>, h: nat, d: nat)
    requires h < |tables| && d < Cap(tables[h]) && forall g :: 0 <= g < |tables| ==> Cap(tables[g]) > 0
    ensures SlotsLeft(tables, h, d) > 0
    ensures h > 0 ==> 0 < SlotsLeft(tables, h - 1, 0) < SlotsLeft(tables, h, d)
  {
    if h > 0 { SlotsPositive(tables, h - 1, 0); }
  }

  lemma OneSlotOn(s: State, t: nat)
    requires Safe(s, t) && s.threads[t].pc.Search? && s.threads[t].pc.d < Cap(s.tables[s.threads[t].pc.h])
    requires var Search(_, h, d) := s.threads[t].pc; h > 0 ==> SlotsLeft(s.tables, h - 1, 0) < SlotsLeft(s.tables, h, d)
    ensures Onward(s, SearchStep(s, t), t)
  {
    var Search(main, h, d) := s.threads[t].pc;
    assert SlotsLeft(s.tables, h, d + 1) == SlotsLeft(s.tables, h, d) - 1;
  }

  lemma ClaimOn(s: State, t: nat)
    requires Safe(s, t) && s.threads[t].pc.Claim?
    ensures Onward(s, ClaimStep(s, t), t)
  {
  }

  /** A thread that finds no room in its table found the flag taken just before, by another
      thread that is at work on a larger table: if nobody has the flag it goes on to get one
      itself or has room. And the flag is never taken without somebody having it. */
  lemma WaitsForHolder(s: State, t: nat, ok: bool)
    requires Reachable(s) && t < |s.threads| && s.threads[t].pc.Check?
    ensures s.locked <==> exists v :: 0 <= v < |s.threads| && HoldsFlag(s.threads[v].pc)
    ensures var s' := Step(s, t, ok);
            && t < |s'.threads| && s'.tables == s.tables
            && var pc' := s'.threads[t].pc;
               || pc'.Reload?
               || (pc'.Decide? && pc'.main < |s.tables| && HasRoom(pc'.n, Cap(s.tables[pc'.main])))
               || (pc'.Decide? && exists v :: 0 <= v < |s.threads| && v != t && HoldsFlag(s.threads[v].pc))
  {
    ReachableInvariant(s);
    InvSafe(s, t);
    assert Use(TheFlag, true);
    if s.locked { assert SomeHolder(s.threads); }
  }
}
