/** What the cache operations guarantee, stated over their specification
    functions: the listing's closed form, what a save makes readable, what a
    close leaves behind, which tickets the retention sweep selects, and that a
    failover is permanent. */
module CacheProperties {
  import opened Tickets
  import opened CacheStore

  // ---------------------------------------------------------------------
  // Listing

  /** The position of the first read answered by the fallback tier in a run of
      `n` reads whose i-th read is primary call i; `n` when none fails. */
  function FirstFallbackRead(f: Fault, n: nat): (j: nat)
    ensures j <= n
    ensures j < n <==> f.FaultAt? && f.call < n
  {
    if f.FaultAt? && f.call < n then f.call else n
  }

  /** The tickets stored for `ids`, in that order; ids without a payload are skipped. */
  function Present(ids: seq<string>, store: map<string, Ticket>, prefix: string): (r: seq<Ticket>)
    ensures |r| <= |ids|
    decreases |ids|
  {
    if ids == [] then []
    else
      var last := ids[|ids| - 1];
      Present(ids[..|ids| - 1], store, prefix)
        + (if TicketKey(prefix, last) in store then [store[TicketKey(prefix, last)]] else [])
  }

  lemma PresentSnoc(ids: seq<string>, id: string, store: map<string, Ticket>, prefix: string)
    ensures Present(ids + [id], store, prefix) == Present(ids, store, prefix) + Item(Lookup(store, TicketKey(prefix, id)))
  {
    assert (ids + [id])[..|ids|] == ids;
  }

  /** The item a read of `id` adds to a listing. */
  function Item(found: Option<Ticket>): seq<Ticket> {
    if found.Some? then [found.value] else []
  }

  /** Where a run of `n` reads from state `s` switches to the fallback tier: at
      the first failing read while the flag holds, at once when it is clear. */
  function Split(s: CacheState, f: Fault, n: nat): (j: nat)
    ensures j <= n
  {
    if s.useRedis then FirstFallbackRead(f, n) else 0
  }

  /** One more read appended to a listing. */
  lemma ReadAllSnoc(s: CacheState, prefix: string, f: Fault, init: seq<string>, last: string)
    ensures var r' := ReadAll(s, prefix, f, init);
            var g := Get(r'.state, prefix, last, After(f, |init|));
            && ReadAll(s, prefix, f, init + [last]).state == g.state
            && ReadAll(s, prefix, f, init + [last]).value == r'.value + Item(g.value)
  {
    assert (init + [last])[..|init|] == init;
  }

  /** The closed form of the reads of `order` from state `s`. */
  predicate ClosedForm(s: CacheState, prefix: string, f: Fault, order: seq<string>, r: Read<seq<Ticket>>) {
    var j := Split(s, f, |order|);
    && r.state == s.(useRedis := s.useRedis && j == |order|)
    && r.value == Present(order[..j], s.primary.strings, prefix) + Present(order[j..], s.memory.cache, prefix)
  }

  /** The reads of a listing, in closed form: the ids before the first failing
      read come from the primary, that id and all later ones from the fallback
      tier, and the flag survives only if no read failed. */
  lemma {:induction false} ReadAllClosedForm(s: CacheState, prefix: string, f: Fault, order: seq<string>)
    ensures ClosedForm(s, prefix, f, order, ReadAll(s, prefix, f, order))
    decreases |order|
  {
    var n := |order|;
    if n == 0 {
      return;
    }
    var init := order[..n - 1];
    var last := order[n - 1];
    assert order == init + [last];
    ReadAllClosedForm(s, prefix, f, init);
    ReadAllStep(s, prefix, f, init, last);
  }

  /** The inductive step of `ReadAllClosedForm`. */
  lemma ReadAllStep(s: CacheState, prefix: string, f: Fault, init: seq<string>, last: string)
    requires ClosedForm(s, prefix, f, init, ReadAll(s, prefix, f, init))
    ensures ClosedForm(s, prefix, f, init + [last], ReadAll(s, prefix, f, init + [last]))
  {
    ReadAllSnoc(s, prefix, f, init, last);
    ClosedFormStep(s, prefix, f, init, last, ReadAll(s, prefix, f, init), ReadAll(s, prefix, f, init + [last]));
  }

  /** One more read keeps a listing in closed form. */
  lemma ClosedFormStep(s: CacheState, prefix: string, f: Fault, init: seq<string>, last: string,
                       before: Read<seq<Ticket>>, after: Read<seq<Ticket>>)
    requires ClosedForm(s, prefix, f, init, before)
    requires var g := Get(before.state, prefix, last, After(f, |init|));
             after.state == g.state && after.value == before.value + Item(g.value)
    ensures ClosedForm(s, prefix, f, init + [last], after)
  {
    var n := |init| + 1;
    var j' := Split(s, f, n - 1);
    SplitStep(s, f, n);
    if s.useRedis && j' == n - 1 && !Hits(f, n - 1) {
      assert init[..n - 1] == init && init[n - 1..] == [];
      assert !Hits(After(f, n - 1), 0);
      PresentSnoc(init, last, s.primary.strings, prefix);
      assert (init + [last])[..n] == init + [last] && (init + [last])[n..] == [];
    } else {
      PresentSplitSnoc(init, last, j', s.primary.strings, s.memory.cache, prefix);
    }
  }

  /** How the switch point moves when one more read is made. */
  lemma SplitStep(s: CacheState, f: Fault, n: nat)
    requires n >= 1
    ensures s.useRedis && Split(s, f, n - 1) == n - 1 && !Hits(f, n - 1) ==> Split(s, f, n) == n
    ensures !(s.useRedis && Split(s, f, n - 1) == n - 1 && !Hits(f, n - 1)) ==> Split(s, f, n) == Split(s, f, n - 1)
  {
  }

  /** A read answered by the fallback tier extends the fallback part of the listing. */
  lemma PresentSplitSnoc(init: seq<string>, last: string, j: nat,
                         primary: map<string, Ticket>, memory: map<string, Ticket>, prefix: string)
    requires j <= |init|
    ensures Present((init + [last])[..j], primary, prefix) + Present((init + [last])[j..], memory, prefix)
         == Present(init[..j], primary, prefix) + Present(init[j..], memory, prefix)
            + Item(Lookup(memory, TicketKey(prefix, last)))
  {
    assert (init + [last])[..j] == init[..j];
    assert (init + [last])[j..] == init[j..] + [last];
    PresentSnoc(init[j..], last, memory, prefix);
  }

  /** Over a store that keeps every payload under its own key, `Present` keeps
      exactly the stored tickets whose id is listed. */
  lemma {:induction false} PresentMembers(ids: seq<string>, store: map<string, Ticket>, prefix: string, t: Ticket)
    requires KeysMatchIds(store, prefix)
    ensures t in Present(ids, store, prefix) <==> t.id in ids && Lookup(store, TicketKey(prefix, t.id)) == Some(t)
    decreases |ids|
  {
    if ids == [] {
      return;
    }
    var init := ids[..|ids| - 1];
    var last := ids[|ids| - 1];
    assert ids == init + [last];
    PresentMembers(init, store, prefix, t);
    var k := TicketKey(prefix, last);
    if k in store && store[k] == t {
      assert k == TicketKey(prefix, t.id);
      TicketKeyInjective(prefix, last, t.id);
    }
    if t.id == last && Lookup(store, TicketKey(prefix, t.id)) == Some(t) {
      assert t in Present(ids, store, prefix);
    }
  }

  /** A listing is the reads of `order` from the state after SMEMBERS: with the
      flag intact when that call succeeds, with the flag cleared otherwise. */
  lemma ListClosedForm(s: CacheState, prefix: string, f: Fault, primaryKey: string,
                       fallbackIds: set<string>, order: seq<string>)
    ensures s.useRedis && !Hits(f, 0) ==>
              ClosedForm(s, prefix, After(f, 1), order, List(s, prefix, f, primaryKey, fallbackIds, order))
    ensures !(s.useRedis && !Hits(f, 0)) ==>
              ClosedForm(s.(useRedis := false), prefix, f, order, List(s, prefix, f, primaryKey, fallbackIds, order))
  {
    if s.useRedis && !Hits(f, 0) {
      ReadAllClosedForm(s, prefix, After(f, 1), order);
    } else {
      ReadAllClosedForm(s.(useRedis := false), prefix, f, order);
    }
  }

  /** Reads that never fail list exactly the stored tickets of the ids read. */
  lemma AllFromOneTier(s: CacheState, prefix: string, f: Fault, order: seq<string>, ids: set<string>,
                       store: map<string, Ticket>, r: Read<seq<Ticket>>, t: Ticket)
    requires ClosedForm(s, prefix, f, order, r)
    requires Split(s, f, |order|) == (if s.useRedis then |order| else 0)
    requires store == (if s.useRedis then s.primary.strings else s.memory.cache)
    requires KeysMatchIds(store, prefix) && Enumerates(order, ids)
    ensures r.state == s
    ensures t in r.value <==> t.id in ids && Lookup(store, TicketKey(prefix, t.id)) == Some(t)
  {
    var j := Split(s, f, |order|);
    if s.useRedis {
      assert order[..j] == order && order[j..] == [];
    } else {
      assert order[..j] == [] && order[j..] == order;
    }
    PresentMembers(order, store, prefix, t);
  }

  /** A listing whose primary calls all succeed returns exactly the stored
      tickets of the primary set, and the flag stays set. */
  lemma ListWithoutFault(s: CacheState, prefix: string, primaryKey: string, fallbackIds: set<string>,
                         order: seq<string>, t: Ticket)
    requires s.useRedis && KeysMatchIds(s.primary.strings, prefix)
    requires Enumerates(order, Members(s.primary, primaryKey))
    ensures List(s, prefix, NoFault, primaryKey, fallbackIds, order).state == s
    ensures t in List(s, prefix, NoFault, primaryKey, fallbackIds, order).value
        <==> t.id in Members(s.primary, primaryKey) && Lookup(s.primary.strings, TicketKey(prefix, t.id)) == Some(t)
  {
    ListClosedForm(s, prefix, NoFault, primaryKey, fallbackIds, order);
    AllFromOneTier(s, prefix, After(NoFault, 1), order, Members(s.primary, primaryKey), s.primary.strings,
                   List(s, prefix, NoFault, primaryKey, fallbackIds, order), t);
  }

  /** After failover a listing returns exactly the stored fallback tickets of
      the fallback set, and touches nothing. */
  lemma ListAfterFailover(s: CacheState, prefix: string, f: Fault, primaryKey: string, fallbackIds: set<string>,
                          order: seq<string>, t: Ticket)
    requires !s.useRedis && KeysMatchIds(s.memory.cache, prefix)
    requires Enumerates(order, fallbackIds)
    ensures List(s, prefix, f, primaryKey, fallbackIds, order).state == s
    ensures t in List(s, prefix, f, primaryKey, fallbackIds, order).value
        <==> t.id in fallbackIds && Lookup(s.memory.cache, TicketKey(prefix, t.id)) == Some(t)
  {
    ListClosedForm(s, prefix, f, primaryKey, fallbackIds, order);
    assert s.(useRedis := false) == s;
    AllFromOneTier(s, prefix, f, order, fallbackIds, s.memory.cache,
                   List(s, prefix, f, primaryKey, fallbackIds, order), t);
  }

  /** A ticket in a closed-form listing is stored in one tier or the other under
      an id that was read. */
  lemma ClosedFormSound(s: CacheState, prefix: string, f: Fault, order: seq<string>, r: Read<seq<Ticket>>, t: Ticket)
    requires ClosedForm(s, prefix, f, order, r)
    requires KeysMatchIds(s.primary.strings, prefix) && KeysMatchIds(s.memory.cache, prefix)
    requires t in r.value
    ensures t.id in order
    ensures Lookup(s.primary.strings, TicketKey(prefix, t.id)) == Some(t)
         || Lookup(s.memory.cache, TicketKey(prefix, t.id)) == Some(t)
  {
    var j := Split(s, f, |order|);
    assert order == order[..j] + order[j..];
    if t in Present(order[..j], s.primary.strings, prefix) {
      PresentMembers(order[..j], s.primary.strings, prefix, t);
    } else {
      PresentMembers(order[j..], s.memory.cache, prefix, t);
    }
  }

  /** Whatever fails, a listed ticket is stored, in one tier or the other, under
      an id the listing enumerated. */
  lemma ListSound(s: CacheState, prefix: string, f: Fault, primaryKey: string, fallbackIds: set<string>,
                  order: seq<string>, t: Ticket)
    requires Consistent(s, prefix)
    requires t in List(s, prefix, f, primaryKey, fallbackIds, order).value
    ensures t.id in order
    ensures Lookup(s.primary.strings, TicketKey(prefix, t.id)) == Some(t)
         || Lookup(s.memory.cache, TicketKey(prefix, t.id)) == Some(t)
  {
    ListClosedForm(s, prefix, f, primaryKey, fallbackIds, order);
    var r := List(s, prefix, f, primaryKey, fallbackIds, order);
    if s.useRedis && !Hits(f, 0) {
      ClosedFormSound(s, prefix, After(f, 1), order, r, t);
    } else {
      ClosedFormSound(s.(useRedis := false), prefix, f, order, r, t);
    }
  }

  // ---------------------------------------------------------------------
  // Save, get and close

  /** A saved ticket reads back, unless the read itself is the primary call that
      fails: the fallback tier never saw a save that reached the primary. */
  lemma SaveThenGet(s: CacheState, prefix: string, t: Ticket, f1: Fault, f2: Fault)
    requires HasTierSets(s.memory)
    ensures var s1 := Save(s, prefix, t, f1);
            Get(s1, prefix, t.id, f2).value == Some(t) || (s1.useRedis && Hits(f2, 0))
  {
  }

  /** That exception is real: a ticket saved to a healthy primary is not found
      by a read whose primary call fails. */
  lemma FailoverHidesPrimaryWrites(prefix: string, t: Ticket)
    ensures var s1 := Save(CacheState(Keyspace(map[], map[]), EmptyMemory(), true), prefix, t, NoFault);
            && s1.useRedis
            && Get(s1, prefix, t.id, NoFault).value == Some(t)
            && Get(s1, prefix, t.id, FaultAt(0)).value == None
  {
    var s1 := Save(CacheState(Keyspace(map[], map[]), EmptyMemory(), true), prefix, t, NoFault);
    assert s1.memory == EmptyMemory();
  }

  /** Saving the same ticket twice without failure changes nothing the second time. */
  lemma SaveIdempotent(s: CacheState, prefix: string, t: Ticket)
    requires HasTierSets(s.memory)
    ensures Save(Save(s, prefix, t, NoFault), prefix, t, NoFault) == Save(s, prefix, t, NoFault)
  {
    var s1 := Save(s, prefix, t, NoFault);
    if s.useRedis {
      var d := s1.primary;
      assert d.strings[TicketKey(prefix, t.id) := t] == d.strings;
      var k1 := StatusSetKey(prefix, t.status);
      var k2 := PrioritySetKey(prefix, t.priority);
      assert d.sets[k1 := Members(d, k1) + {t.id}] == d.sets;
      var d' := SetAdd(d.(strings := d.strings), k1, t.id);
      assert d'.sets[k2 := Members(d', k2) + {t.id}] == d.sets;
    } else {
      var m := s1.memory;
      var name := PriorityName(t.priority);
      assert m.cache[TicketKey(prefix, t.id) := t] == m.cache;
      assert m.priority[name := m.priority[name] + {t.id}] == m.priority;
    }
  }

  /** Closing a ticket that is found stores it with status Closed, in at least
      one tier, and the tier the flag ends on lists it as closed and not open. */
  lemma CloseEffect(s: CacheState, prefix: string, id: string, f: Fault, t: Ticket)
    requires Consistent(s, prefix)
    requires Get(s, prefix, id, f).value == Some(t)
    ensures t.id == id
    ensures var r := Close(s, prefix, id, f);
            && (Lookup(r.primary.strings, TicketKey(prefix, id)) == Some(t.(status := Closed))
                || Lookup(r.memory.cache, TicketKey(prefix, id)) == Some(t.(status := Closed)))
            && (r.useRedis ==> && Lookup(r.primary.strings, TicketKey(prefix, id)) == Some(t.(status := Closed))
                               && id in Members(r.primary, ClosedSetKey(prefix))
                               && id !in Members(r.primary, OpenSetKey(prefix)))
            && (!r.useRedis ==> id in r.memory.closed && id !in r.memory.open)
  {
    var g := Get(s, prefix, id, f);
    if g.state.useRedis {
      assert TicketKey(prefix, id) == TicketKey(prefix, s.primary.strings[TicketKey(prefix, id)].id);
    } else {
      assert TicketKey(prefix, id) == TicketKey(prefix, s.memory.cache[TicketKey(prefix, id)].id);
    }
    TicketKeyInjective(prefix, id, t.id);
  }

  /** Closing an id that is not found changes neither tier. */
  lemma CloseAbsent(s: CacheState, prefix: string, id: string, f: Fault)
    requires HasTierSets(s.memory)
    requires Get(s, prefix, id, f).value == None
    ensures Close(s, prefix, id, f).primary == s.primary
    ensures Close(s, prefix, id, f).memory == s.memory
  {
  }

  /** A close whose last primary call fails leaves the fallback tier listing the
      id as closed while the closed payload exists only on the primary. */
  lemma CloseFailoverSplitsTiers(prefix: string, t: Ticket)
    requires t.status == Open
    ensures var s := Save(CacheState(Keyspace(map[], map[]), EmptyMemory(), true), prefix, t, NoFault);
            var r := Close(s, prefix, t.id, FaultAt(1 + SaveCalls + 1));
            && !r.useRedis
            && t.id in r.memory.closed
            && Lookup(r.memory.cache, TicketKey(prefix, t.id)) == None
            && Lookup(r.primary.strings, TicketKey(prefix, t.id)) == Some(t.(status := Closed))
  {
    var s := Save(CacheState(Keyspace(map[], map[]), EmptyMemory(), true), prefix, t, NoFault);
    assert s.memory == EmptyMemory();
  }

  // ---------------------------------------------------------------------
  // Failover

  /** Once the flag is clear, no operation sets it again or touches the primary. */
  lemma FailoverIsPermanent(s: CacheState, prefix: string, id: string, t: Ticket, f: Fault, now: int,
                            primaryOrder: seq<string>, fallbackOrder: seq<string>)
    requires !s.useRedis && HasTierSets(s.memory)
    ensures var r := Save(s, prefix, t, f); !r.useRedis && r.primary == s.primary
    ensures Get(s, prefix, id, f).state == s
    ensures var r := Close(s, prefix, id, f); !r.useRedis && r.primary == s.primary
    ensures var r := Sweep(s, prefix, now, f, primaryOrder, fallbackOrder).state; !r.useRedis && r.primary == s.primary
  {
  }

  // ---------------------------------------------------------------------
  // Retention sweep

  /** The payload stored for `id` exists and is expired. */
  predicate ExpiredIn(store: map<string, Ticket>, prefix: string, now: int, id: string) {
    TicketKey(prefix, id) in store && Expired(store[TicketKey(prefix, id)], now)
  }

  predicate Distinct(ids: seq<string>) {
    forall i, j :: 0 <= i < j < |ids| ==> ids[i] != ids[j]
  }

  /** Keys of different kinds never coincide. */
  lemma SetKeysDiffer(prefix: string, p: Priority)
    ensures PrioritySetKey(prefix, p) != ClosedSetKey(prefix)
  {
    assert PrioritySetKey(prefix, p)[|prefix|] == 'p';
    assert ClosedSetKey(prefix)[|prefix|] == 'c';
  }

  /** One step of the fallback pass: an expired payload of `x` is selected and
      removed, anything else leaves the pass as it was. */
  lemma MemorySweepStepEffect(p: MemoryPass, prefix: string, now: int, x: string)
    requires KeysMatchIds(p.memory.cache, prefix)
    ensures var q := MemorySweepStep(p, prefix, now, x);
            var k := TicketKey(prefix, x);
            && q.memory.open == p.memory.open && q.memory.closed == p.memory.closed
            && KeysMatchIds(q.memory.cache, prefix)
            && (ExpiredIn(p.memory.cache, prefix, now, x) ==>
                  && p.memory.cache[k].id == x
                  && q.archived == p.archived + [p.memory.cache[k]]
                  && q.toRemove == p.toRemove + [x]
                  && q.memory.cache == p.memory.cache - {k})
            && (!ExpiredIn(p.memory.cache, prefix, now, x) ==> q == p)
  {
    var k := TicketKey(prefix, x);
    if k in p.memory.cache {
      assert k == TicketKey(prefix, p.memory.cache[k].id);
      TicketKeyInjective(prefix, x, p.memory.cache[k].id);
    }
  }

  /** Removing `x`'s payload leaves every other id's payload where it was. */
  lemma LookupAfterRemove(store: map<string, Ticket>, prefix: string, x: string, id: string)
    requires id != x
    ensures Lookup(store - {TicketKey(prefix, x)}, TicketKey(prefix, id)) == Lookup(store, TicketKey(prefix, id))
  {
    if TicketKey(prefix, id) == TicketKey(prefix, x) {
      TicketKeyInjective(prefix, id, x);
    }
  }

  /** The fallback pass over distinct ids removes exactly the expired payloads
      of those ids and keeps the open and closed sets for later. */
  lemma {:induction false} MemorySweepCache(m: MemoryTier, prefix: string, now: int, ids: seq<string>)
    requires KeysMatchIds(m.cache, prefix) && Distinct(ids)
    ensures var p := MemorySweep(MemoryPass(m, [], []), prefix, now, ids);
            && p.memory.open == m.open && p.memory.closed == m.closed
            && KeysMatchIds(p.memory.cache, prefix)
            && (forall id :: Lookup(p.memory.cache, TicketKey(prefix, id))
                          == if id in ids && ExpiredIn(m.cache, prefix, now, id) then None
                             else Lookup(m.cache, TicketKey(prefix, id)))
    decreases |ids|
  {
    if ids == [] {
      return;
    }
    var init := ids[..|ids| - 1];
    var x := ids[|ids| - 1];
    assert ids == init + [x];
    MemorySweepCache(m, prefix, now, init);
    var p' := MemorySweep(MemoryPass(m, [], []), prefix, now, init);
    assert x !in init;
    assert Lookup(p'.memory.cache, TicketKey(prefix, x)) == Lookup(m.cache, TicketKey(prefix, x));
    MemorySweepStepEffect(p', prefix, now, x);
    forall id | id != x
      ensures Lookup(p'.memory.cache - {TicketKey(prefix, x)}, TicketKey(prefix, id))
           == Lookup(p'.memory.cache, TicketKey(prefix, id))
    {
      LookupAfterRemove(p'.memory.cache, prefix, x, id);
    }
  }

  /** The fallback pass over distinct ids selects exactly the expired payloads of
      those ids, both as tickets to archive and as closed ids to drop. */
  lemma {:induction false} MemorySweepSelects(m: MemoryTier, prefix: string, now: int, ids: seq<string>)
    requires KeysMatchIds(m.cache, prefix) && Distinct(ids)
    ensures var p := MemorySweep(MemoryPass(m, [], []), prefix, now, ids);
            && (forall id :: id in p.toRemove <==> id in ids && ExpiredIn(m.cache, prefix, now, id))
            && (forall t :: t in p.archived
                        <==> t.id in ids && Lookup(m.cache, TicketKey(prefix, t.id)) == Some(t) && Expired(t, now))
    decreases |ids|
  {
    if ids == [] {
      return;
    }
    var init := ids[..|ids| - 1];
    var x := ids[|ids| - 1];
    assert ids == init + [x];
    MemorySweepSelects(m, prefix, now, init);
    MemorySweepCache(m, prefix, now, init);
    var p' := MemorySweep(MemoryPass(m, [], []), prefix, now, init);
    assert x !in init;
    var k := TicketKey(prefix, x);
    assert Lookup(p'.memory.cache, k) == Lookup(m.cache, k);
    MemorySweepStepEffect(p', prefix, now, x);
    forall t: Ticket | t.id == x && Lookup(m.cache, TicketKey(prefix, t.id)) == Some(t)
      ensures t == m.cache[k]
    {
    }
  }

  /** The elements of a sequence of ids. */
  function Elems(ids: seq<string>): set<string> {
    set id | id in ids
  }

  /** The ids of `ids` whose stored payload is expired and belongs to the
      priority set named `name`: what the sweep takes out of that set. */
  function ExpiredOfTier(store: map<string, Ticket>, prefix: string, now: int, ids: set<string>, name: string): set<string> {
    set id | id in ids && ExpiredIn(store, prefix, now, id) && PriorityName(store[TicketKey(prefix, id)].priority) == name
  }

  lemma ExpiredOfTierSnoc(store: map<string, Ticket>, prefix: string, now: int, init: seq<string>, x: string, name: string)
    ensures ExpiredOfTier(store, prefix, now, Elems(init + [x]), name)
         == ExpiredOfTier(store, prefix, now, Elems(init), name)
            + (if ExpiredIn(store, prefix, now, x) && PriorityName(store[TicketKey(prefix, x)].priority) == name
               then {x} else {})
  {
    assert Elems(init + [x]) == Elems(init) + {x};
  }

  /** One step of the fallback pass on the priority sets: an expired payload of
      `x` takes `x` out of the set named after its priority, and no other set
      changes. */
  lemma MemorySweepStepTiers(p: MemoryPass, prefix: string, now: int, x: string)
    requires KeysMatchIds(p.memory.cache, prefix)
    ensures var q := MemorySweepStep(p, prefix, now, x);
            var k := TicketKey(prefix, x);
            && q.memory.priority.Keys == p.memory.priority.Keys
            && (forall n :: TierSet(q.memory, n)
                         == if ExpiredIn(p.memory.cache, prefix, now, x) && n == PriorityName(p.memory.cache[k].priority)
                            then TierSet(p.memory, n) - {x} else TierSet(p.memory, n))
  {
    MemorySweepStepEffect(p, prefix, now, x);
  }

  /** The fallback pass over distinct ids takes out of each priority set exactly
      the ids whose payload is expired and has that priority. */
  lemma {:induction false} MemorySweepTiers(m: MemoryTier, prefix: string, now: int, ids: seq<string>)
    requires KeysMatchIds(m.cache, prefix) && Distinct(ids)
    ensures var p := MemorySweep(MemoryPass(m, [], []), prefix, now, ids);
            && p.memory.priority.Keys == m.priority.Keys
            && (forall n :: TierSet(p.memory, n) == TierSet(m, n) - ExpiredOfTier(m.cache, prefix, now, Elems(ids), n))
    decreases |ids|
  {
    if ids == [] {
      return;
    }
    var init := ids[..|ids| - 1];
    var x := ids[|ids| - 1];
    assert ids == init + [x];
    MemorySweepTiers(m, prefix, now, init);
    MemorySweepCache(m, prefix, now, init);
    var p' := MemorySweep(MemoryPass(m, [], []), prefix, now, init);
    assert x !in init;
    var k := TicketKey(prefix, x);
    assert Lookup(p'.memory.cache, k) == Lookup(m.cache, k);
    MemorySweepStepTiers(p', prefix, now, x);
    forall n {
      ExpiredOfTierSnoc(m.cache, prefix, now, init, x, n);
    }
  }

  /** The fallback sweep over the whole closed set: the archived tickets are
      exactly the expired closed tickets with a payload; their ids leave the
      closed set and the priority set of their priority, and their payloads
      leave the cache. The open set, the other set memberships, the other
      payloads and the primary tier do not change. */
  lemma FallbackSweepEffect(s: CacheState, prefix: string, now: int, order: seq<string>)
    requires KeysMatchIds(s.memory.cache, prefix)
    requires Enumerates(order, s.memory.closed)
    ensures var r := FallbackSweep(s, prefix, now, order);
            && r.state.primary == s.primary && r.state.useRedis == s.useRedis
            && r.state.memory.open == s.memory.open
            && r.state.memory.priority.Keys == s.memory.priority.Keys
            && (forall n :: TierSet(r.state.memory, n)
                         == TierSet(s.memory, n) - ExpiredOfTier(s.memory.cache, prefix, now, s.memory.closed, n))
            && (forall id :: id in r.state.memory.closed
                          <==> id in s.memory.closed && !ExpiredIn(s.memory.cache, prefix, now, id))
            && (forall id :: Lookup(r.state.memory.cache, TicketKey(prefix, id))
                          == if id in s.memory.closed && ExpiredIn(s.memory.cache, prefix, now, id) then None
                             else Lookup(s.memory.cache, TicketKey(prefix, id)))
            && (forall t :: t in r.value
                        <==> && t.id in s.memory.closed
                             && Lookup(s.memory.cache, TicketKey(prefix, t.id)) == Some(t)
                             && Expired(t, now))
  {
    MemorySweepCache(s.memory, prefix, now, order);
    MemorySweepSelects(s.memory, prefix, now, order);
    MemorySweepTiers(s.memory, prefix, now, order);
    assert Elems(order) == s.memory.closed;
  }

  /** One step of a primary pass without failures: an expired payload of `x` is
      selected, deleted and dropped from the closed set; anything else leaves the
      pass as it was apart from the call count. */
  lemma PrimarySweepStepEffect(p: PrimaryPass, prefix: string, now: int, x: string)
    requires !p.thrown && p.state.useRedis && KeysMatchIds(p.state.primary.strings, prefix)
    ensures var q := PrimarySweepStep(p, prefix, now, NoFault, x);
            var k := TicketKey(prefix, x);
            var strings := p.state.primary.strings;
            && !q.thrown && q.state.useRedis && q.state.memory == p.state.memory
            && KeysMatchIds(q.state.primary.strings, prefix)
            && (ExpiredIn(strings, prefix, now, x) ==>
                  && strings[k].id == x
                  && q.archived == p.archived + [strings[k]]
                  && q.state.primary.strings == strings - {k}
                  && Members(q.state.primary, ClosedSetKey(prefix)) == Members(p.state.primary, ClosedSetKey(prefix)) - {x})
            && (!ExpiredIn(strings, prefix, now, x) ==> q.state == p.state && q.archived == p.archived)
  {
    var k := TicketKey(prefix, x);
    var strings := p.state.primary.strings;
    if ExpiredIn(strings, prefix, now, x) {
      var t0 := strings[k];
      assert k == TicketKey(prefix, t0.id);
      TicketKeyInjective(prefix, x, t0.id);
      TicketKeyIsNotASetKey(prefix, x, Closed, t0.priority);
      SetKeysDiffer(prefix, t0.priority);
      var d1 := KeyDelete(p.state.primary, k);
      assert d1.strings == strings - {k};
      assert Members(d1, ClosedSetKey(prefix)) == Members(p.state.primary, ClosedSetKey(prefix));
    }
  }

  /** One step of a primary pass without failures on the sets: an expired payload
      of `x` takes `x` out of the set of its priority; the open set and the other
      priority sets are not touched. */
  lemma PrimarySweepStepSets(p: PrimaryPass, prefix: string, now: int, x: string)
    requires !p.thrown && p.state.useRedis && KeysMatchIds(p.state.primary.strings, prefix)
    ensures var q := PrimarySweepStep(p, prefix, now, NoFault, x);
            var strings := p.state.primary.strings;
            && Members(q.state.primary, OpenSetKey(prefix)) == Members(p.state.primary, OpenSetKey(prefix))
            && (forall pr :: Members(q.state.primary, PrioritySetKey(prefix, pr))
                          == if ExpiredIn(strings, prefix, now, x) && pr == strings[TicketKey(prefix, x)].priority
                             then Members(p.state.primary, PrioritySetKey(prefix, pr)) - {x}
                             else Members(p.state.primary, PrioritySetKey(prefix, pr)))
  {
    var k := TicketKey(prefix, x);
    var strings := p.state.primary.strings;
    PrimarySweepStepEffect(p, prefix, now, x);
    if ExpiredIn(strings, prefix, now, x) {
      var t0 := strings[k];
      var d1 := KeyDelete(p.state.primary, k);
      var d2 := SetRemove(d1, PrioritySetKey(prefix, t0.priority), x);
      var q := PrimarySweepStep(p, prefix, now, NoFault, x);
      assert q.state.primary == SetRemove(d2, ClosedSetKey(prefix), x);
      TicketKeyIsNotASetKey(prefix, x, Open, t0.priority);
      SetKeysDistinct(prefix, t0.priority, t0.priority);
      forall pr
        ensures Members(q.state.primary, PrioritySetKey(prefix, pr))
             == if pr == t0.priority then Members(p.state.primary, PrioritySetKey(prefix, pr)) - {x}
                else Members(p.state.primary, PrioritySetKey(prefix, pr))
      {
        TicketKeyIsNotASetKey(prefix, x, Open, pr);
        SetKeysDistinct(prefix, pr, t0.priority);
      }
    }
  }

  /** Without failures the primary pass over distinct ids keeps the open set and
      takes out of each priority set exactly the ids whose payload is expired and
      has that priority. */
  lemma {:induction false} PrimarySweepSets(s: CacheState, prefix: string, now: int, calls: nat, ids: seq<string>)
    requires s.useRedis && KeysMatchIds(s.primary.strings, prefix) && Distinct(ids)
    ensures var p := PrimarySweep(PrimaryPass(s, calls, [], false), prefix, now, NoFault, ids);
            && Members(p.state.primary, OpenSetKey(prefix)) == Members(s.primary, OpenSetKey(prefix))
            && (forall pr :: Members(p.state.primary, PrioritySetKey(prefix, pr))
                          == Members(s.primary, PrioritySetKey(prefix, pr))
                             - ExpiredOfTier(s.primary.strings, prefix, now, Elems(ids), PriorityName(pr)))
    decreases |ids|
  {
    if ids == [] {
      return;
    }
    var init := ids[..|ids| - 1];
    var x := ids[|ids| - 1];
    assert ids == init + [x];
    PrimarySweepSets(s, prefix, now, calls, init);
    PrimarySweepCache(s, prefix, now, calls, init);
    var p' := PrimarySweep(PrimaryPass(s, calls, [], false), prefix, now, NoFault, init);
    assert x !in init;
    var k := TicketKey(prefix, x);
    assert Lookup(p'.state.primary.strings, k) == Lookup(s.primary.strings, k);
    PrimarySweepStepSets(p', prefix, now, x);
    var q := PrimarySweepStep(p', prefix, now, NoFault, x);
    assert q == PrimarySweep(PrimaryPass(s, calls, [], false), prefix, now, NoFault, ids);
    forall pr
      ensures Members(q.state.primary, PrioritySetKey(prefix, pr))
           == Members(s.primary, PrioritySetKey(prefix, pr))
              - ExpiredOfTier(s.primary.strings, prefix, now, Elems(ids), PriorityName(pr))
    {
      var name := PriorityName(pr);
      ExpiredOfTierSnoc(s.primary.strings, prefix, now, init, x, name);
      var hit := ExpiredIn(s.primary.strings, prefix, now, x) && pr == s.primary.strings[k].priority;
      if ExpiredIn(s.primary.strings, prefix, now, x) && PriorityName(s.primary.strings[k].priority) == name {
        PriorityNameInjective(s.primary.strings[k].priority, pr);
      }
      RemoveOneMore(Members(s.primary, PrioritySetKey(prefix, pr)), Members(p'.state.primary, PrioritySetKey(prefix, pr)),
                    Members(q.state.primary, PrioritySetKey(prefix, pr)),
                    ExpiredOfTier(s.primary.strings, prefix, now, Elems(init), name), x, hit);
    }
  }

  /** Taking `x` out after taking out `d` is taking out `d` and `x` together. */
  lemma RemoveOneMore(a: set<string>, b: set<string>, c: set<string>, d: set<string>, x: string, hit: bool)
    requires b == a - d && c == (if hit then b - {x} else b)
    ensures c == a - (d + if hit then {x} else {})
  {
  }

  /** Without failures the primary pass over distinct ids never throws, keeps the
      flag and the fallback tier, and deletes exactly the expired payloads. */
  lemma {:induction false} PrimarySweepCache(s: CacheState, prefix: string, now: int, calls: nat, ids: seq<string>)
    requires s.useRedis && KeysMatchIds(s.primary.strings, prefix) && Distinct(ids)
    ensures var p := PrimarySweep(PrimaryPass(s, calls, [], false), prefix, now, NoFault, ids);
            && !p.thrown && p.state.useRedis && p.state.memory == s.memory
            && KeysMatchIds(p.state.primary.strings, prefix)
            && (forall id :: Lookup(p.state.primary.strings, TicketKey(prefix, id))
                          == if id in ids && ExpiredIn(s.primary.strings, prefix, now, id) then None
                             else Lookup(s.primary.strings, TicketKey(prefix, id)))
    decreases |ids|
  {
    if ids == [] {
      return;
    }
    var init := ids[..|ids| - 1];
    var x := ids[|ids| - 1];
    assert ids == init + [x];
    PrimarySweepCache(s, prefix, now, calls, init);
    var p' := PrimarySweep(PrimaryPass(s, calls, [], false), prefix, now, NoFault, init);
    assert x !in init;
    assert Lookup(p'.state.primary.strings, TicketKey(prefix, x)) == Lookup(s.primary.strings, TicketKey(prefix, x));
    PrimarySweepStepEffect(p', prefix, now, x);
    forall id | id != x
      ensures Lookup(p'.state.primary.strings - {TicketKey(prefix, x)}, TicketKey(prefix, id))
           == Lookup(p'.state.primary.strings, TicketKey(prefix, id))
    {
      LookupAfterRemove(p'.state.primary.strings, prefix, x, id);
    }
  }

  /** Without failures the primary pass over distinct ids selects exactly the
      expired payloads of those ids and drops exactly their ids from the closed set. */
  lemma {:induction false} PrimarySweepSelects(s: CacheState, prefix: string, now: int, calls: nat, ids: seq<string>)
    requires s.useRedis && KeysMatchIds(s.primary.strings, prefix) && Distinct(ids)
    ensures var p := PrimarySweep(PrimaryPass(s, calls, [], false), prefix, now, NoFault, ids);
            && (forall id :: id in Members(p.state.primary, ClosedSetKey(prefix))
                          <==> id in Members(s.primary, ClosedSetKey(prefix))
                               && !(id in ids && ExpiredIn(s.primary.strings, prefix, now, id)))
            && (forall t :: t in p.archived
                        <==> t.id in ids && Lookup(s.primary.strings, TicketKey(prefix, t.id)) == Some(t) && Expired(t, now))
    decreases |ids|
  {
    if ids == [] {
      return;
    }
    var init := ids[..|ids| - 1];
    var x := ids[|ids| - 1];
    assert ids == init + [x];
    PrimarySweepSelects(s, prefix, now, calls, init);
    PrimarySweepCache(s, prefix, now, calls, init);
    var p' := PrimarySweep(PrimaryPass(s, calls, [], false), prefix, now, NoFault, init);
    assert x !in init;
    var k := TicketKey(prefix, x);
    assert Lookup(p'.state.primary.strings, k) == Lookup(s.primary.strings, k);
    PrimarySweepStepEffect(p', prefix, now, x);
    forall t: Ticket | t.id == x && Lookup(s.primary.strings, TicketKey(prefix, t.id)) == Some(t)
      ensures t == s.primary.strings[k]
    {
    }
  }

  /** A sweep on a healthy primary without failures: the archived tickets are
      exactly the expired closed tickets on the primary, whose ids leave the
      primary closed set and the priority set of their priority and whose
      payloads are deleted; the open set, the other payloads and the fallback
      tier are not touched and the flag stays set. */
  lemma SweepWithoutFault(s: CacheState, prefix: string, now: int, primaryOrder: seq<string>, fallbackOrder: seq<string>)
    requires s.useRedis && KeysMatchIds(s.primary.strings, prefix)
    requires Enumerates(primaryOrder, Members(s.primary, ClosedSetKey(prefix)))
    ensures var r := Sweep(s, prefix, now, NoFault, primaryOrder, fallbackOrder);
            && r.state.useRedis && r.state.memory == s.memory
            && Members(r.state.primary, OpenSetKey(prefix)) == Members(s.primary, OpenSetKey(prefix))
            && (forall pr :: Members(r.state.primary, PrioritySetKey(prefix, pr))
                          == Members(s.primary, PrioritySetKey(prefix, pr))
                             - ExpiredOfTier(s.primary.strings, prefix, now, Members(s.primary, ClosedSetKey(prefix)),
                                             PriorityName(pr)))
            && (forall id :: id in Members(r.state.primary, ClosedSetKey(prefix))
                          <==> id in Members(s.primary, ClosedSetKey(prefix)) && !ExpiredIn(s.primary.strings, prefix, now, id))
            && (forall id :: Lookup(r.state.primary.strings, TicketKey(prefix, id))
                          == if id in Members(s.primary, ClosedSetKey(prefix)) && ExpiredIn(s.primary.strings, prefix, now, id)
                             then None else Lookup(s.primary.strings, TicketKey(prefix, id)))
            && (forall t :: t in r.value
                        <==> && t.id in Members(s.primary, ClosedSetKey(prefix))
                             && Lookup(s.primary.strings, TicketKey(prefix, t.id)) == Some(t)
                             && Expired(t, now))
  {
    PrimarySweepCache(s, prefix, now, 1, primaryOrder);
    PrimarySweepSelects(s, prefix, now, 1, primaryOrder);
    PrimarySweepSets(s, prefix, now, 1, primaryOrder);
    assert Elems(primaryOrder) == Members(s.primary, ClosedSetKey(prefix));
  }

  /** Every ticket a primary pass selects is expired. */
  lemma {:induction false} PrimarySweepArchivesExpired(start: PrimaryPass, prefix: string, now: int, f: Fault, ids: seq<string>)
    requires forall t :: t in start.archived ==> Expired(t, now)
    ensures forall t :: t in PrimarySweep(start, prefix, now, f, ids).archived ==> Expired(t, now)
    decreases |ids|
  {
    if ids != [] {
      PrimarySweepArchivesExpired(start, prefix, now, f, ids[..|ids| - 1]);
    }
  }

  /** Every ticket a fallback pass selects is expired. */
  lemma {:induction false} MemorySweepArchivesExpired(start: MemoryPass, prefix: string, now: int, ids: seq<string>)
    requires forall t :: t in start.archived ==> Expired(t, now)
    ensures forall t :: t in MemorySweep(start, prefix, now, ids).archived ==> Expired(t, now)
    decreases |ids|
  {
    if ids != [] {
      MemorySweepArchivesExpired(start, prefix, now, ids[..|ids| - 1]);
    }
  }

  /** Whatever fails, the sweep never returns an open ticket or one inside the
      retention window. */
  lemma SweepArchivesOnlyExpired(s: CacheState, prefix: string, now: int, f: Fault,
                                 primaryOrder: seq<string>, fallbackOrder: seq<string>, t: Ticket)
    requires t in Sweep(s, prefix, now, f, primaryOrder, fallbackOrder).value
    ensures t.status == Closed && now - t.dateUploaded > RetentionDays * SecondsPerDay
  {
    PrimarySweepArchivesExpired(PrimaryPass(s, 1, [], false), prefix, now, f, primaryOrder);
    var p := PrimaryPassOf(s, prefix, now, f, primaryOrder);
    MemorySweepArchivesExpired(MemoryPass(s.memory, [], []), prefix, now, fallbackOrder);
    MemorySweepArchivesExpired(MemoryPass(p.state.memory, [], []), prefix, now, fallbackOrder);
  }
}
