/** The ticket cache with sticky failover (`RedisService`).

    The primary tier is a remote Redis keyspace, modelled as a value of type
    `Keyspace` that only the primary calls below change. The fallback tier is
    the process-local payload map, open/closed id sets and per-priority id sets.
    A primary failure is an input: `FaultAt(k)` makes the k-th primary call
    (counting from 0, nested calls included) of one public operation throw.
    Every public operation has a specification function over a `CacheState`
    snapshot; the `RedisService` class implements it on fields, the way the
    source does, and is proved equal to it. */
module CacheStore {
  import opened Tickets

  // ---------------------------------------------------------------------
  // Key namespace

  const DefaultInstanceName: string := "TicketSystem:"

  /** `$"{_instanceName}{key}"` */
  function FormatKey(prefix: string, key: string): (r: string)
    ensures |r| == |prefix| + |key|
    ensures r[..|prefix|] == prefix && r[|prefix|..] == key
  {
    prefix + key
  }

  function TicketKey(prefix: string, id: string): string {
    FormatKey(prefix, "ticket:" + id)
  }

  function OpenSetKey(prefix: string): string {
    FormatKey(prefix, "open-tickets")
  }

  function ClosedSetKey(prefix: string): string {
    FormatKey(prefix, "closed-tickets")
  }

  function StatusSetKey(prefix: string, status: Status): string {
    if status == Open then OpenSetKey(prefix) else ClosedSetKey(prefix)
  }

  function PrioritySetKey(prefix: string, p: Priority): string {
    FormatKey(prefix, "priority:" + PriorityName(p) + "-tickets")
  }

  /** Different ids never share a payload key. */
  lemma TicketKeyInjective(prefix: string, a: string, b: string)
    requires TicketKey(prefix, a) == TicketKey(prefix, b)
    ensures a == b
  {
    var n := |prefix| + 7;
    assert a == TicketKey(prefix, a)[n..];
    assert b == TicketKey(prefix, b)[n..];
  }

  /** A payload key is never one of the set keys, so payloads and sets never
      collide in the one Redis keyspace. */
  lemma TicketKeyIsNotASetKey(prefix: string, id: string, s: Status, p: Priority)
    ensures TicketKey(prefix, id) != StatusSetKey(prefix, s)
    ensures TicketKey(prefix, id) != PrioritySetKey(prefix, p)
  {
    var n := |prefix|;
    assert TicketKey(prefix, id)[n] == 't';
    assert OpenSetKey(prefix)[n] == 'o';
    assert ClosedSetKey(prefix)[n] == 'c';
    assert PrioritySetKey(prefix, p)[n] == 'p';
  }

  /** Each priority has its own set key, and no priority set key is the open or
      the closed set key. */
  lemma SetKeysDistinct(prefix: string, p: Priority, q: Priority)
    ensures PrioritySetKey(prefix, p) == PrioritySetKey(prefix, q) ==> p == q
    ensures PrioritySetKey(prefix, p) != OpenSetKey(prefix)
    ensures PrioritySetKey(prefix, p) != ClosedSetKey(prefix)
    ensures OpenSetKey(prefix) != ClosedSetKey(prefix)
  {
    var n := |prefix|;
    assert PrioritySetKey(prefix, p)[n] == 'p';
    assert OpenSetKey(prefix)[n] == 'o';
    assert ClosedSetKey(prefix)[n] == 'c';
    assert PrioritySetKey(prefix, p)[n + 9] == PriorityName(p)[0];
    assert PrioritySetKey(prefix, q)[n + 9] == PriorityName(q)[0];
    match p
    case High =>
    case Medium =>
    case Low =>
  }

  // ---------------------------------------------------------------------
  // Primary tier: the Redis keyspace and the calls the service makes on it

  datatype Keyspace = Keyspace(strings: map<string, Ticket>, sets: map<string, set<string>>)

  function Lookup(store: map<string, Ticket>, key: string): (r: Option<Ticket>)
    ensures r.Some? <==> key in store
    ensures r.Some? ==> r.value == store[key]
  {
    if key in store then Some(store[key]) else None
  }

  /** SMEMBERS: an absent set reads as empty. */
  function Members(db: Keyspace, key: string): set<string> {
    if key in db.sets then db.sets[key] else {}
  }

  /** SET key value */
  function StringSet(db: Keyspace, key: string, t: Ticket): (r: Keyspace)
    ensures Lookup(r.strings, key) == Some(t)
    ensures forall k :: k != key ==> Lookup(r.strings, k) == Lookup(db.strings, k)
    ensures r.sets == db.sets
  {
    db.(strings := db.strings[key := t])
  }

  /** SADD key member */
  function SetAdd(db: Keyspace, key: string, member: string): (r: Keyspace)
    ensures Members(r, key) == Members(db, key) + {member}
    ensures forall k :: k != key ==> Members(r, k) == Members(db, k)
    ensures r.strings == db.strings
  {
    db.(sets := db.sets[key := Members(db, key) + {member}])
  }

  /** SREM key member */
  function SetRemove(db: Keyspace, key: string, member: string): (r: Keyspace)
    ensures Members(r, key) == Members(db, key) - {member}
    ensures forall k :: k != key ==> Members(r, k) == Members(db, k)
    ensures r.strings == db.strings
  {
    db.(sets := db.sets[key := Members(db, key) - {member}])
  }

  /** DEL key */
  function KeyDelete(db: Keyspace, key: string): (r: Keyspace)
    ensures key !in r.strings && key !in r.sets
    ensures forall k :: k != key ==> Lookup(r.strings, k) == Lookup(db.strings, k)
    ensures forall k :: k != key ==> Members(r, k) == Members(db, k)
  {
    Keyspace(db.strings - {key}, db.sets - {key})
  }

  // ---------------------------------------------------------------------
  // Fallback tier

  datatype MemoryTier = MemoryTier(
    cache: map<string, Ticket>,
    open: set<string>,
    closed: set<string>,
    priority: map<string, set<string>>)

  /** The three per-priority sets the constructor creates are present. */
  predicate HasTierSets(m: MemoryTier) {
    "high" in m.priority && "medium" in m.priority && "low" in m.priority
  }

  /** Every payload is stored under its own ticket's key. */
  predicate KeysMatchIds(store: map<string, Ticket>, prefix: string) {
    forall k :: k in store ==> k == TicketKey(prefix, store[k].id)
  }

  function EmptyMemory(): (m: MemoryTier)
    ensures HasTierSets(m)
    ensures m.cache == map[] && m.open == {} && m.closed == {}
  {
    MemoryTier(map[], {}, {}, map["high" := {}, "medium" := {}, "low" := {}])
  }

  /** `_priorityTickets.TryGetValue(name, ...)`: a missing set reads as empty. */
  function TierSet(m: MemoryTier, name: string): set<string> {
    if name in m.priority then m.priority[name] else {}
  }

  /** The fallback half of `SaveTicketAsync`: payload upsert, then the status set
      of the ticket's current status and its priority set gain the id. */
  function MemorySave(m: MemoryTier, prefix: string, t: Ticket): (r: MemoryTier)
    requires HasTierSets(m)
    ensures HasTierSets(r)
    ensures KeysMatchIds(m.cache, prefix) ==> KeysMatchIds(r.cache, prefix)
    ensures Lookup(r.cache, TicketKey(prefix, t.id)) == Some(t)
    ensures forall k :: k != TicketKey(prefix, t.id) ==> Lookup(r.cache, k) == Lookup(m.cache, k)
    ensures r.open == if t.status == Open then m.open + {t.id} else m.open
    ensures r.closed == if t.status == Closed then m.closed + {t.id} else m.closed
    ensures TierSet(r, PriorityName(t.priority)) == TierSet(m, PriorityName(t.priority)) + {t.id}
    ensures forall n :: n != PriorityName(t.priority) ==> TierSet(r, n) == TierSet(m, n)
  {
    var name := PriorityName(t.priority);
    m.(cache := m.cache[TicketKey(prefix, t.id) := t],
       open := if t.status == Open then m.open + {t.id} else m.open,
       closed := if t.status == Closed then m.closed + {t.id} else m.closed,
       priority := m.priority[name := m.priority[name] + {t.id}])
  }

  /** The fallback half of `CloseTicketAsync`'s set move. */
  function MemoryMarkClosed(m: MemoryTier, id: string): (r: MemoryTier)
    ensures id !in r.open && id in r.closed
    ensures r.open == m.open - {id} && r.closed == m.closed + {id}
    ensures r.cache == m.cache && r.priority == m.priority
  {
    m.(open := m.open - {id}, closed := m.closed + {id})
  }

  /** Drop an expired ticket's payload and its priority-set entry (the sweep's
      fallback removal; the closed-set entry is dropped after the pass). */
  function RemoveTicket(m: MemoryTier, prefix: string, t: Ticket): (r: MemoryTier)
    ensures HasTierSets(m) ==> HasTierSets(r)
    ensures KeysMatchIds(m.cache, prefix) ==> KeysMatchIds(r.cache, prefix)
    ensures r.cache == m.cache - {TicketKey(prefix, t.id)}
    ensures r.open == m.open && r.closed == m.closed && r.priority.Keys == m.priority.Keys
    ensures TierSet(r, PriorityName(t.priority)) == TierSet(m, PriorityName(t.priority)) - {t.id}
    ensures forall n :: n != PriorityName(t.priority) ==> TierSet(r, n) == TierSet(m, n)
  {
    var name := PriorityName(t.priority);
    m.(cache := m.cache - {TicketKey(prefix, t.id)},
       priority := if name in m.priority then m.priority[name := m.priority[name] - {t.id}] else m.priority)
  }

  // ---------------------------------------------------------------------
  // Failure oracle

  /** `FaultAt(k)`: the k-th primary call of the operation throws (k counts from 0). */
  datatype Fault = NoFault | FaultAt(call: nat)

  predicate Hits(f: Fault, i: nat) {
    f == FaultAt(i)
  }

  /** The fault as seen by the calls that follow the first `n` calls. */
  function After(f: Fault, n: nat): (r: Fault)
  {
    match f
    case FaultAt(k) => if k < n then NoFault else FaultAt(k - n)
    case NoFault => NoFault
  }

  // ---------------------------------------------------------------------
  // Whole-store state and the specification of each operation

  /** The primary keyspace, the fallback tier and the `_useRedis` flag. */
  datatype CacheState = CacheState(primary: Keyspace, memory: MemoryTier, useRedis: bool)

  /** The invariant the service keeps: the fallback tier has its three priority
      sets and, in both tiers, every payload sits under its own ticket's key. */
  predicate Consistent(s: CacheState, prefix: string) {
    && HasTierSets(s.memory)
    && KeysMatchIds(s.primary.strings, prefix)
    && KeysMatchIds(s.memory.cache, prefix)
  }

  /** A read's new state (a failure may clear the flag) and its value. */
  datatype Read<T> = Read(state: CacheState, value: T)

  /** Primary calls a healthy `SaveTicketAsync` makes: SET, SADD status, SADD priority. */
  const SaveCalls: nat := 3

  /** The first `n` of Save's three primary writes. */
  function PrimarySaveWrites(db: Keyspace, prefix: string, t: Ticket, n: nat): (r: Keyspace)
    ensures KeysMatchIds(db.strings, prefix) ==> KeysMatchIds(r.strings, prefix)
  {
    var d1 := if n >= 1 then StringSet(db, TicketKey(prefix, t.id), t) else db;
    var d2 := if n >= 2 then SetAdd(d1, StatusSetKey(prefix, t.status), t.id) else d1;
    if n >= 3 then SetAdd(d2, PrioritySetKey(prefix, t.priority), t.id) else d2
  }

  /** `SaveTicketAsync`. While the flag is set the three writes go to the primary;
      a failure at any of them leaves the writes before it in place, clears the
      flag and redoes the whole save on the fallback tier. */
  function Save(s: CacheState, prefix: string, t: Ticket, f: Fault): (r: CacheState)
    requires HasTierSets(s.memory)
    ensures HasTierSets(r.memory)
    ensures Consistent(s, prefix) ==> Consistent(r, prefix)
    ensures r.useRedis <==> s.useRedis && !(f.FaultAt? && f.call < SaveCalls)
    ensures r.useRedis ==> r.memory == s.memory
    ensures r.useRedis ==> Lookup(r.primary.strings, TicketKey(prefix, t.id)) == Some(t)
    ensures r.useRedis ==> t.id in Members(r.primary, StatusSetKey(prefix, t.status))
    ensures r.useRedis ==> t.id in Members(r.primary, PrioritySetKey(prefix, t.priority))
    ensures !r.useRedis ==> r.memory == MemorySave(s.memory, prefix, t)
    ensures !s.useRedis ==> r.primary == s.primary
  {
    if !s.useRedis then
      s.(memory := MemorySave(s.memory, prefix, t))
    else if f.FaultAt? && f.call < SaveCalls then
      CacheState(PrimarySaveWrites(s.primary, prefix, t, f.call), MemorySave(s.memory, prefix, t), false)
    else
      s.(primary := PrimarySaveWrites(s.primary, prefix, t, SaveCalls))
  }

  /** Primary calls `GetTicketAsync` makes in state `s`. */
  function GetCalls(s: CacheState): nat {
    if s.useRedis then 1 else 0
  }

  /** `GetTicketAsync`: a missing payload is `None`, never an error. A failing
      primary read clears the flag and is answered from the fallback tier. */
  function Get(s: CacheState, prefix: string, id: string, f: Fault): (r: Read<Option<Ticket>>)
    ensures r.state == s.(useRedis := r.state.useRedis)
    ensures r.state.useRedis <==> s.useRedis && !Hits(f, 0)
    ensures r.state.useRedis ==> r.value == Lookup(s.primary.strings, TicketKey(prefix, id))
    ensures !r.state.useRedis ==> r.value == Lookup(s.memory.cache, TicketKey(prefix, id))
  {
    if s.useRedis && !Hits(f, 0) then Read(s, Lookup(s.primary.strings, TicketKey(prefix, id)))
    else Read(s.(useRedis := false), Lookup(s.memory.cache, TicketKey(prefix, id)))
  }

  /** `order` lists every element of `ids` exactly once. */
  predicate Enumerates(order: seq<string>, ids: set<string>) {
    && (forall i, j :: 0 <= i < j < |order| ==> order[i] != order[j])
    && (forall i :: 0 <= i < |order| ==> order[i] in ids)
    && (forall x :: x in ids ==> x in order)
  }

  /** The listing loop: one nested `GetTicketAsync` per id of `order`, keeping
      the tickets found. While the flag holds, the i-th read is primary call i. */
  function ReadAll(s: CacheState, prefix: string, f: Fault, order: seq<string>): (r: Read<seq<Ticket>>)
    ensures r.state == s.(useRedis := r.state.useRedis)
    ensures r.state.useRedis ==> s.useRedis
    ensures |r.value| <= |order|
    decreases |order|
  {
    if order == [] then Read(s, [])
    else
      var r := ReadAll(s, prefix, f, order[..|order| - 1]);
      var g := Get(r.state, prefix, order[|order| - 1], After(f, |order| - 1));
      Read(g.state, r.value + (if g.value.Some? then [g.value.value] else []))
  }

  /** The ids a listing enumerates: the primary set if SMEMBERS succeeds,
      otherwise the fallback set. */
  function ListedIds(s: CacheState, f: Fault, primaryKey: string, fallbackIds: set<string>): set<string> {
    if s.useRedis && !Hits(f, 0) then Members(s.primary, primaryKey) else fallbackIds
  }

  /** `GetOpenTicketsAsync` / `GetTicketsByPriorityAsync` over `order`, an
      enumeration of `ListedIds`: SMEMBERS is primary call 0, then the reads. */
  function List(s: CacheState, prefix: string, f: Fault, primaryKey: string,
                fallbackIds: set<string>, order: seq<string>): (r: Read<seq<Ticket>>)
    ensures r.state == s.(useRedis := r.state.useRedis)
    ensures r.state.useRedis ==> s.useRedis
    ensures |r.value| <= |order|
  {
    if s.useRedis && !Hits(f, 0) then ReadAll(s, prefix, After(f, 1), order)
    else ReadAll(s.(useRedis := false), prefix, f, order)
  }

  function ListOpen(s: CacheState, prefix: string, f: Fault, order: seq<string>): Read<seq<Ticket>> {
    List(s, prefix, f, OpenSetKey(prefix), s.memory.open, order)
  }

  function ListByPriority(s: CacheState, prefix: string, p: Priority, f: Fault, order: seq<string>): Read<seq<Ticket>> {
    List(s, prefix, f, PrioritySetKey(prefix, p), TierSet(s.memory, PriorityName(p)), order)
  }

  /** The set move at the end of `CloseTicketAsync`: SREM open then SADD closed on
      the primary while the flag holds; otherwise, or after a failure of either,
      the same move on the fallback tier. */
  function MoveToClosed(s: CacheState, prefix: string, id: string, f: Fault): (r: CacheState)
    ensures r.primary.strings == s.primary.strings && r.memory.cache == s.memory.cache
    ensures r.memory.priority == s.memory.priority
    ensures r.useRedis <==> s.useRedis && !Hits(f, 0) && !Hits(f, 1)
    ensures r.useRedis ==> r.memory == s.memory
    ensures r.useRedis ==> id in Members(r.primary, ClosedSetKey(prefix)) && id !in Members(r.primary, OpenSetKey(prefix))
    ensures !r.useRedis ==> r.memory == MemoryMarkClosed(s.memory, id)
  {
    if s.useRedis && !Hits(f, 0) then
      var d1 := SetRemove(s.primary, OpenSetKey(prefix), id);
      if Hits(f, 1) then CacheState(d1, MemoryMarkClosed(s.memory, id), false)
      else s.(primary := SetAdd(d1, ClosedSetKey(prefix), id))
    else
      CacheState(s.primary, MemoryMarkClosed(s.memory, id), false)
  }

  /** `CloseTicketAsync`: read the ticket (absent: nothing more happens), save it
      again with status Closed, then move the id from the open set to the closed
      set, on whichever tier the flag selects at that point. */
  function Close(s: CacheState, prefix: string, id: string, f: Fault): (r: CacheState)
    requires HasTierSets(s.memory)
    ensures Consistent(s, prefix) ==> Consistent(r, prefix)
    ensures r.useRedis ==> s.useRedis
  {
    var g := Get(s, prefix, id, f);
    match g.value
    case None => g.state
    case Some(t) =>
      var n1 := GetCalls(s);
      var n2 := if g.state.useRedis then SaveCalls else 0;
      var s2 := Save(g.state, prefix, t.(status := Closed), After(f, n1));
      MoveToClosed(s2, prefix, id, After(f, n1 + n2))
  }

  // ---------------------------------------------------------------------
  // Retention sweep (`RemoveOldClosedTicketsAsync`)

  /** Selected by the sweep: closed and uploaded more than seven days before `now`. */
  predicate Expired(t: Ticket, now: int) {
    t.status == Closed && OlderThanRetention(t, now)
  }

  /** Progress of the sweep's primary pass: the state so far, the primary calls
      made, the tickets selected, and whether a primary call of the pass failed. */
  datatype PrimaryPass = PrimaryPass(state: CacheState, calls: nat, archived: seq<Ticket>, thrown: bool)

  /** The three removals for an expired ticket in the primary pass: DEL payload,
      SREM priority set, SREM closed set, each a primary call that may fail. They
      go through the database handle taken at the start, whatever the flag says. */
  function PrimaryRemove(p: PrimaryPass, prefix: string, f: Fault, t: Ticket): (r: PrimaryPass)
    ensures r.archived == p.archived && r.state.memory == p.state.memory && r.state.useRedis == p.state.useRedis
    ensures KeysMatchIds(p.state.primary.strings, prefix) ==> KeysMatchIds(r.state.primary.strings, prefix)
  {
    var db := p.state.primary;
    if Hits(f, p.calls) then p.(thrown := true)
    else
      var d1 := KeyDelete(db, TicketKey(prefix, t.id));
      if Hits(f, p.calls + 1) then p.(state := p.state.(primary := d1), thrown := true)
      else
        var d2 := SetRemove(d1, PrioritySetKey(prefix, t.priority), t.id);
        if Hits(f, p.calls + 2) then p.(state := p.state.(primary := d2), thrown := true)
        else p.(state := p.state.(primary := SetRemove(d2, ClosedSetKey(prefix), t.id)), calls := p.calls + 3)
  }

  /** What the primary pass does with the result of its read: an expired ticket
      is selected and removed; anything else is passed over. */
  function PrimaryVisit(q: PrimaryPass, prefix: string, now: int, f: Fault, found: Option<Ticket>): PrimaryPass
  {
    if found.Some? && Expired(found.value, now) then
      PrimaryRemove(q.(archived := q.archived + [found.value]), prefix, f, found.value)
    else q
  }

  /** One closed id in the primary pass: a nested `GetTicketAsync`, then the
      removals if the ticket it finds is expired. */
  function PrimarySweepStep(p: PrimaryPass, prefix: string, now: int, f: Fault, id: string): PrimaryPass
  {
    if p.thrown then p
    else
      var g := Get(p.state, prefix, id, After(f, p.calls));
      PrimaryVisit(p.(state := g.state, calls := p.calls + GetCalls(p.state)), prefix, now, f, g.value)
  }

  /** A step of a pass that has not thrown is its read followed by the visit. */
  lemma PrimarySweepStepReads(p: PrimaryPass, prefix: string, now: int, f: Fault, id: string,
                              g: Read<Option<Ticket>>, q: PrimaryPass)
    requires !p.thrown && g == Get(p.state, prefix, id, After(f, p.calls))
    requires q == p.(state := g.state, calls := p.calls + GetCalls(p.state))
    ensures PrimarySweepStep(p, prefix, now, f, id) == PrimaryVisit(q, prefix, now, f, g.value)
  {
  }

  function PrimarySweep(start: PrimaryPass, prefix: string, now: int, f: Fault, ids: seq<string>): PrimaryPass
    decreases |ids|
  {
    if ids == [] then start
    else PrimarySweepStep(PrimarySweep(start, prefix, now, f, ids[..|ids| - 1]), prefix, now, f, ids[|ids| - 1])
  }

  /** The primary pass keeps the cache consistent: reads change only the flag,
      and removals delete whole payloads. */
  lemma {:induction false} PrimarySweepConsistent(start: PrimaryPass, prefix: string, now: int, f: Fault, ids: seq<string>)
    requires Consistent(start.state, prefix)
    ensures Consistent(PrimarySweep(start, prefix, now, f, ids).state, prefix)
    decreases |ids|
  {
    if ids != [] {
      PrimarySweepConsistent(start, prefix, now, f, ids[..|ids| - 1]);
      PrimarySweepStepConsistent(PrimarySweep(start, prefix, now, f, ids[..|ids| - 1]), prefix, now, f, ids[|ids| - 1]);
    }
  }

  lemma PrimarySweepStepConsistent(p: PrimaryPass, prefix: string, now: int, f: Fault, id: string)
    requires Consistent(p.state, prefix)
    ensures Consistent(PrimarySweepStep(p, prefix, now, f, id).state, prefix)
  {
    if !p.thrown {
      var g := Get(p.state, prefix, id, After(f, p.calls));
      PrimarySweepStepReads(p, prefix, now, f, id, g, p.(state := g.state, calls := p.calls + GetCalls(p.state)));
    }
  }

  /** Progress of the sweep's fallback pass: the tier so far, the tickets to
      archive and the closed ids to drop afterwards. */
  datatype MemoryPass = MemoryPass(memory: MemoryTier, archived: seq<Ticket>, toRemove: seq<string>)

  /** One closed id in the fallback pass; the nested read is a fallback lookup. */
  function MemorySweepStep(p: MemoryPass, prefix: string, now: int, id: string): MemoryPass {
    match Lookup(p.memory.cache, TicketKey(prefix, id))
    case None => p
    case Some(t) =>
      if Expired(t, now) then MemoryPass(RemoveTicket(p.memory, prefix, t), p.archived + [t], p.toRemove + [id])
      else p
  }

  function MemorySweep(start: MemoryPass, prefix: string, now: int, ids: seq<string>): MemoryPass
    decreases |ids|
  {
    if ids == [] then start
    else MemorySweepStep(MemorySweep(start, prefix, now, ids[..|ids| - 1]), prefix, now, ids[|ids| - 1])
  }

  /** The fallback pass over `order` (an enumeration of the fallback closed set),
      then the removal of the selected ids from the closed set. */
  function FallbackSweep(s: CacheState, prefix: string, now: int, order: seq<string>): Read<seq<Ticket>> {
    var p := MemorySweep(MemoryPass(s.memory, [], []), prefix, now, order);
    Read(s.(memory := p.memory.(closed := p.memory.closed - set id | id in p.toRemove)), p.archived)
  }

  /** The primary pass of the sweep in state `s` (SMEMBERS was call 0). */
  function PrimaryPassOf(s: CacheState, prefix: string, now: int, f: Fault, primaryOrder: seq<string>): PrimaryPass {
    PrimarySweep(PrimaryPass(s, 1, [], false), prefix, now, f, primaryOrder)
  }

  /** `RemoveOldClosedTicketsAsync`. `primaryOrder` enumerates the primary closed set,
      `fallbackOrder` the fallback closed set. If the primary pass throws part-way,
      the tickets it already selected stay in the result, the flag is cleared and
      the fallback pass appends its own. */
  function Sweep(s: CacheState, prefix: string, now: int, f: Fault,
                 primaryOrder: seq<string>, fallbackOrder: seq<string>): (r: Read<seq<Ticket>>)
  {
    if !s.useRedis || Hits(f, 0) then FallbackSweep(s.(useRedis := false), prefix, now, fallbackOrder)
    else
      var p := PrimaryPassOf(s, prefix, now, f, primaryOrder);
      if !p.thrown then Read(p.state, p.archived)
      else
        var r := FallbackSweep(p.state.(useRedis := false), prefix, now, fallbackOrder);
        Read(r.state, p.archived + r.value)
  }

  /** A finite set can be enumerated. */
  ghost function EnumerationOf(ids: set<string>): (order: seq<string>)
    ensures Enumerates(order, ids)
    decreases ids
  {
    if ids == {} then []
    else
      var x :| x in ids;
      var rest := EnumerationOf(ids - {x});
      assert forall i :: 0 <= i < |rest| ==> rest[i] != x;
      [x] + rest
  }

  /** Once a primary pass has thrown, the ids after it are never looked at. */
  lemma {:induction false} PrimarySweepStopsWhenThrown(start: PrimaryPass, prefix: string, now: int, f: Fault,
                                                      ids: seq<string>, rest: seq<string>)
    requires PrimarySweep(start, prefix, now, f, ids).thrown
    ensures PrimarySweep(start, prefix, now, f, ids + rest) == PrimarySweep(start, prefix, now, f, ids)
    decreases |rest|
  {
    if rest == [] {
      assert ids + rest == ids;
    } else {
      var init := rest[..|rest| - 1];
      assert (ids + rest)[..|ids + rest| - 1] == ids + init;
      PrimarySweepStopsWhenThrown(start, prefix, now, f, ids, init);
    }
  }

  /** Enumerations of disjoint sets concatenate to an enumeration of their union. */
  lemma EnumeratesConcat(a: seq<string>, sa: set<string>, b: seq<string>, sb: set<string>)
    requires Enumerates(a, sa) && Enumerates(b, sb) && sa !! sb
    ensures Enumerates(a + b, sa + sb)
  {
    forall x | x in sa + sb
      ensures x in a + b
    {
      if x in sa { assert x in a; } else { assert x in b; }
    }
  }

  /** One more id extends the primary pass by one step. */
  lemma PrimarySweepSnoc(start: PrimaryPass, prefix: string, now: int, f: Fault, ids: seq<string>, id: string)
    ensures PrimarySweep(start, prefix, now, f, ids + [id])
         == PrimarySweepStep(PrimarySweep(start, prefix, now, f, ids), prefix, now, f, id)
  {
    assert (ids + [id])[..|ids + [id]| - 1] == ids;
  }

  /** One more id extends the fallback pass by one step. */
  lemma MemorySweepSnoc(start: MemoryPass, prefix: string, now: int, ids: seq<string>, id: string)
    ensures MemorySweep(start, prefix, now, ids + [id])
         == MemorySweepStep(MemorySweep(start, prefix, now, ids), prefix, now, id)
  {
    assert (ids + [id])[..|ids + [id]| - 1] == ids;
  }

  /** Visiting one more of the remaining ids extends the enumeration of those
      already visited. */
  lemma EnumeratesNext(order: seq<string>, ids: set<string>, remaining: set<string>, id: string)
    requires remaining <= ids && Enumerates(order, ids - remaining) && id in remaining
    ensures Enumerates(order + [id], ids - (remaining - {id}))
  {
    EnumeratesConcat(order, ids - remaining, [id], {id});
    assert ids - (remaining - {id}) == (ids - remaining) + {id};
  }

  /** A primary pass over the ids visited so far extends to an enumeration of all
      the ids: either none is left, or the pass has thrown and ignores the rest. */
  lemma CompleteThrownOrder(start: PrimaryPass, prefix: string, now: int, f: Fault,
                            order: seq<string>, ids: set<string>, remaining: set<string>)
    returns (full: seq<string>)
    requires remaining <= ids && Enumerates(order, ids - remaining)
    requires remaining != {} ==> PrimarySweep(start, prefix, now, f, order).thrown
    ensures Enumerates(full, ids)
    ensures PrimarySweep(start, prefix, now, f, full) == PrimarySweep(start, prefix, now, f, order)
  {
    var rest := EnumerationOf(remaining);
    if remaining == {} {
      assert ids - remaining == ids;
      full := order;
    } else {
      PrimarySweepStopsWhenThrown(start, prefix, now, f, order, rest);
      EnumeratesConcat(order, ids - remaining, rest, remaining);
      assert ids - remaining + remaining == ids;
      full := order + rest;
    }
  }

  // ---------------------------------------------------------------------
  // The service object

  /** `RedisService`. The `primary` field is the remote keyspace; the four
      fallback collections and the flag are the object's own fields. */
  class RedisService {
    const instanceName: string
    var primary: Keyspace
    var inMemoryCache: map<string, Ticket>
    var openTickets: set<string>
    var closedTickets: set<string>
    var priorityTickets: map<string, set<string>>
    var useRedis: bool

    function Memory(): MemoryTier
      reads this
    {
      MemoryTier(inMemoryCache, openTickets, closedTickets, priorityTickets)
    }

    function State(): CacheState
      reads this
    {
      CacheState(primary, Memory(), useRedis)
    }

    predicate Valid()
      reads this
    {
      Consistent(State(), instanceName)
    }

    /** The instance name defaults to "TicketSystem:"; the fallback tier starts
        with its three empty priority sets and the flag set. The remote keyspace
        is whatever an earlier run of the service left there. */
    constructor(name: Option<string>, remote: Keyspace)
      requires KeysMatchIds(remote.strings, name.GetOr(DefaultInstanceName))
      ensures instanceName == name.GetOr(DefaultInstanceName)
      ensures State() == CacheState(remote, EmptyMemory(), true)
      ensures Valid()
    {
      instanceName := name.GetOr(DefaultInstanceName);
      primary := remote;
      inMemoryCache := map[];
      openTickets := {};
      closedTickets := {};
      priorityTickets := map["high" := {}, "medium" := {}, "low" := {}];
      useRedis := true;
    }

    method SaveTicket(t: Ticket, f: Fault)
      requires Valid()
      modifies this
      ensures Valid()
      ensures State() == Save(old(State()), instanceName, t, f)
    {
      var key := TicketKey(instanceName, t.id);
      if useRedis {
        if Hits(f, 0) {
          useRedis := false;
        } else {
          primary := StringSet(primary, key, t);
          if Hits(f, 1) {
            useRedis := false;
          } else {
            primary := SetAdd(primary, StatusSetKey(instanceName, t.status), t.id);
            if Hits(f, 2) {
              useRedis := false;
            } else {
              primary := SetAdd(primary, PrioritySetKey(instanceName, t.priority), t.id);
              return;
            }
          }
        }
      }
      SaveInMemory(t);
    }

    /** The fallback half of `SaveTicketAsync`. */
    method SaveInMemory(t: Ticket)
      requires HasTierSets(Memory())
      modifies this`inMemoryCache, this`openTickets, this`closedTickets, this`priorityTickets
      ensures Memory() == MemorySave(old(Memory()), instanceName, t)
    {
      var name := PriorityName(t.priority);
      inMemoryCache := inMemoryCache[TicketKey(instanceName, t.id) := t];
      if t.status == Open {
        openTickets := openTickets + {t.id};
      } else {
        closedTickets := closedTickets + {t.id};
      }
      priorityTickets := priorityTickets[name := priorityTickets[name] + {t.id}];
    }

    method GetTicket(id: string, f: Fault) returns (r: Option<Ticket>)
      modifies this`useRedis
      ensures Read(State(), r) == Get(old(State()), instanceName, id, f)
    {
      var key := TicketKey(instanceName, id);
      if useRedis {
        if Hits(f, 0) {
          useRedis := false;
        } else {
          return Lookup(primary.strings, key);
        }
      }
      r := Lookup(inMemoryCache, key);
    }

    /** The loop shared by both listings: read each id of `ids` in some order. */
    method ReadEach(ids: set<string>, f: Fault) returns (tickets: seq<Ticket>, ghost order: seq<string>)
      modifies this`useRedis
      ensures Enumerates(order, ids)
      ensures Read(State(), tickets) == ReadAll(old(State()), instanceName, f, order)
    {
      ghost var s0 := State();
      var remaining := ids;
      tickets := [];
      order := [];
      var n := 0;
      while remaining != {}
        invariant n == |order|
        invariant forall i, j :: 0 <= i < j < |order| ==> order[i] != order[j]
        invariant forall i :: 0 <= i < |order| ==> order[i] in ids && order[i] !in remaining
        invariant remaining <= ids
        invariant forall x :: x in ids ==> x in remaining || x in order
        invariant Read(State(), tickets) == ReadAll(s0, instanceName, f, order)
        decreases remaining
      {
        var id :| id in remaining;
        ghost var before := Read(State(), tickets);
        var found := GetTicket(id, After(f, n));
        ghost var g := Read(State(), found);
        assert g == Get(before.state, instanceName, id, After(f, n));
        if found.Some? {
          tickets := tickets + [found.value];
        }
        ghost var next := order + [id];
        assert next[..|next| - 1] == order && next[|next| - 1] == id;
        assert ReadAll(s0, instanceName, f, next) == Read(State(), tickets) by {
          assert before == ReadAll(s0, instanceName, f, order);
          assert tickets == before.value + (if g.value.Some? then [g.value.value] else []);
        }
        order := order + [id];
        n := n + 1;
        remaining := remaining - {id};
      }
    }

    method GetOpenTickets(f: Fault) returns (tickets: seq<Ticket>, ghost order: seq<string>)
      modifies this`useRedis
      ensures Enumerates(order, ListedIds(old(State()), f, OpenSetKey(instanceName), old(openTickets)))
      ensures Read(State(), tickets) == ListOpen(old(State()), instanceName, f, order)
    {
      if useRedis {
        if Hits(f, 0) {
          useRedis := false;
        } else {
          tickets, order := ReadEach(Members(primary, OpenSetKey(instanceName)), After(f, 1));
          return;
        }
      }
      tickets, order := ReadEach(openTickets, f);
    }

    method GetTicketsByPriority(p: Priority, f: Fault) returns (tickets: seq<Ticket>, ghost order: seq<string>)
      modifies this`useRedis
      ensures Enumerates(order, ListedIds(old(State()), f, PrioritySetKey(instanceName, p),
                                          TierSet(old(Memory()), PriorityName(p))))
      ensures Read(State(), tickets) == ListByPriority(old(State()), instanceName, p, f, order)
    {
      var name := PriorityName(p);
      if useRedis {
        if Hits(f, 0) {
          useRedis := false;
        } else {
          tickets, order := ReadEach(Members(primary, PrioritySetKey(instanceName, p)), After(f, 1));
          return;
        }
      }
      if name in priorityTickets {
        tickets, order := ReadEach(priorityTickets[name], f);
      } else {
        tickets, order := ReadEach({}, f);
      }
    }

    method CloseTicket(id: string, f: Fault)
      requires Valid()
      modifies this
      ensures Valid()
      ensures State() == Close(old(State()), instanceName, id, f)
    {
      ghost var s0 := State();
      var n1: nat := if useRedis then 1 else 0;
      var found := GetTicket(id, f);
      if found.None? {
        return;
      }
      ghost var s1 := State();
      assert s1 == Get(s0, instanceName, id, f).state;
      var n2: nat := if useRedis then SaveCalls else 0;
      SaveTicket(found.value.(status := Closed), After(f, n1));
      assert State() == Save(s1, instanceName, found.value.(status := Closed), After(f, n1));
      MoveToClosedSet(id, After(f, n1 + n2));
    }

    method MoveToClosedSet(id: string, f: Fault)
      requires Valid()
      modifies this
      ensures Valid()
      ensures State() == MoveToClosed(old(State()), instanceName, id, f)
    {
      if useRedis {
        if Hits(f, 0) {
          useRedis := false;
        } else {
          primary := SetRemove(primary, OpenSetKey(instanceName), id);
          if Hits(f, 1) {
            useRedis := false;
          } else {
            primary := SetAdd(primary, ClosedSetKey(instanceName), id);
            return;
          }
        }
      }
      openTickets := openTickets - {id};
      closedTickets := closedTickets + {id};
    }

    /** `RemoveOldClosedTicketsAsync`: returns the tickets to archive. */
    method RemoveOldClosedTickets(now: int, f: Fault)
      returns (archived: seq<Ticket>, ghost primaryOrder: seq<string>, ghost fallbackOrder: seq<string>)
      requires Valid()
      modifies this
      ensures Valid()
      ensures Enumerates(primaryOrder, Members(old(primary), ClosedSetKey(instanceName)))
      ensures Enumerates(fallbackOrder, old(closedTickets))
      ensures Read(State(), archived) == Sweep(old(State()), instanceName, now, f, primaryOrder, fallbackOrder)
    {
      ghost var s0 := State();
      archived := [];
      primaryOrder := EnumerationOf(Members(primary, ClosedSetKey(instanceName)));
      if useRedis {
        if Hits(f, 0) {
          useRedis := false;
        } else {
          var thrown;
          archived, thrown, primaryOrder := SweepPrimary(now, f);
          ghost var pass := PrimaryPassOf(s0, instanceName, now, f, primaryOrder);
          if !thrown {
            fallbackOrder := EnumerationOf(closedTickets);
            assert Sweep(s0, instanceName, now, f, primaryOrder, fallbackOrder) == Read(pass.state, pass.archived);
            return;
          }
          useRedis := false;
          assert State() == pass.state.(useRedis := false);
        }
      }
      ghost var s1 := State();
      ghost var prior := archived;
      var swept;
      swept, fallbackOrder := SweepFallback(now);
      archived := archived + swept;
      if !s0.useRedis || Hits(f, 0) {
        assert s1 == s0.(useRedis := false) && prior == [];
        assert Sweep(s0, instanceName, now, f, primaryOrder, fallbackOrder)
            == FallbackSweep(s1, instanceName, now, fallbackOrder);
        assert archived == swept;
      } else {
        ghost var pass := PrimaryPassOf(s0, instanceName, now, f, primaryOrder);
        assert pass.thrown && s1 == pass.state.(useRedis := false) && prior == pass.archived;
      }
    }

    /** The primary half of the sweep, up to its end or its first failing call. */
    method SweepPrimary(now: int, f: Fault) returns (archived: seq<Ticket>, thrown: bool, ghost order: seq<string>)
      requires Valid() && useRedis && !Hits(f, 0)
      modifies this`primary, this`useRedis
      ensures Valid()
      ensures Enumerates(order, Members(old(primary), ClosedSetKey(instanceName)))
      ensures var p := PrimaryPassOf(old(State()), instanceName, now, f, order);
              p.state == State() && p.archived == archived && p.thrown == thrown
    {
      ghost var start := PrimaryPass(State(), 1, [], false);
      var ids := Members(primary, ClosedSetKey(instanceName));
      var remaining := ids;
      var calls: nat := 1;
      archived := [];
      thrown := false;
      order := [];
      while remaining != {} && !thrown
        invariant remaining <= ids && Enumerates(order, ids - remaining)
        invariant PrimarySweep(start, instanceName, now, f, order) == PrimaryPass(State(), calls, archived, thrown)
        decreases remaining
      {
        var id :| id in remaining;
        PrimarySweepSnoc(start, instanceName, now, f, order, id);
        EnumeratesNext(order, ids, remaining, id);
        calls, archived, thrown := SweepPrimaryStep(id, now, f, calls, archived);
        order := order + [id];
        remaining := remaining - {id};
      }
      order := CompleteThrownOrder(start, instanceName, now, f, order, ids, remaining);
      PrimarySweepConsistent(start, instanceName, now, f, order);
    }

    /** One id of the primary pass, from a state where the pass has not thrown. */
    method SweepPrimaryStep(id: string, now: int, f: Fault, calls: nat, archived: seq<Ticket>)
      returns (calls': nat, archived': seq<Ticket>, thrown: bool)
      modifies this`primary, this`useRedis
      ensures PrimarySweepStep(PrimaryPass(old(State()), calls, archived, false), instanceName, now, f, id)
           == PrimaryPass(State(), calls', archived', thrown)
    {
      ghost var p := PrimaryPass(State(), calls, archived, false);
      ghost var g := Get(p.state, instanceName, id, After(f, calls));
      var viaRedis := useRedis;
      var found := GetTicket(id, After(f, calls));
      assert g == Read(State(), found);
      calls' := if viaRedis then calls + 1 else calls;
      ghost var q := PrimaryPass(State(), calls', archived, false);
      PrimarySweepStepReads(p, instanceName, now, f, id, g, q);
      calls', archived', thrown := VisitFound(found, now, f, calls', archived);
    }

    /** The removals of the primary pass for the ticket its read returned. */
    method VisitFound(found: Option<Ticket>, now: int, f: Fault, calls: nat, archived: seq<Ticket>)
      returns (calls': nat, archived': seq<Ticket>, thrown: bool)
      modifies this`primary
      ensures PrimaryVisit(PrimaryPass(old(State()), calls, archived, false), instanceName, now, f, found)
           == PrimaryPass(State(), calls', archived', thrown)
    {
      calls', archived', thrown := calls, archived, false;
      if found.Some? && Expired(found.value, now) {
        archived' := archived + [found.value];
        calls', thrown := RemoveOnPrimary(found.value, f, calls, archived');
      }
    }

    method RemoveOnPrimary(t: Ticket, f: Fault, calls: nat, ghost archived: seq<Ticket>)
      returns (calls': nat, thrown: bool)
      modifies this`primary
      ensures PrimaryRemove(PrimaryPass(old(State()), calls, archived, false), instanceName, f, t)
           == PrimaryPass(State(), calls', archived, thrown)
    {
      calls' := calls;
      thrown := true;
      if Hits(f, calls) {
        return;
      }
      primary := KeyDelete(primary, TicketKey(instanceName, t.id));
      if Hits(f, calls + 1) {
        return;
      }
      primary := SetRemove(primary, PrioritySetKey(instanceName, t.priority), t.id);
      if Hits(f, calls + 2) {
        return;
      }
      primary := SetRemove(primary, ClosedSetKey(instanceName), t.id);
      calls' := calls + 3;
      thrown := false;
    }

    /** The fallback half of the sweep: select, then drop the selected closed ids. */
    method SweepFallback(now: int) returns (swept: seq<Ticket>, ghost order: seq<string>)
      requires Valid() && !useRedis
      modifies this
      ensures Valid()
      ensures Enumerates(order, old(closedTickets))
      ensures Read(State(), swept) == FallbackSweep(old(State()), instanceName, now, order)
    {
      ghost var start := MemoryPass(Memory(), [], []);
      var ids := closedTickets;
      var remaining := ids;
      var toRemove: seq<string> := [];
      swept := [];
      order := [];
      while remaining != {}
        invariant remaining <= ids && Enumerates(order, ids - remaining)
        invariant Valid() && !useRedis && primary == old(primary) && closedTickets == ids
        invariant MemorySweep(start, instanceName, now, order) == MemoryPass(Memory(), swept, toRemove)
        decreases remaining
      {
        var id :| id in remaining;
        MemorySweepSnoc(start, instanceName, now, order, id);
        EnumeratesNext(order, ids, remaining, id);
        swept, toRemove := SweepFallbackStep(id, now, swept, toRemove);
        order := order + [id];
        remaining := remaining - {id};
      }
      assert ids - remaining == ids;
      DropClosed(toRemove);
    }

    /** One closed id of the fallback pass: an expired ticket loses its payload and
        priority-set entry at once; its closed-set entry is dropped after the pass. */
    method SweepFallbackStep(id: string, now: int, swept: seq<Ticket>, toRemove: seq<string>)
      returns (swept': seq<Ticket>, toRemove': seq<string>)
      requires Valid() && !useRedis
      modifies this`inMemoryCache, this`priorityTickets, this`useRedis
      ensures Valid() && !useRedis
      ensures MemorySweepStep(MemoryPass(old(Memory()), swept, toRemove), instanceName, now, id)
           == MemoryPass(Memory(), swept', toRemove')
    {
      ghost var m0 := Memory();
      var found := GetTicket(id, NoFault);
      assert found == Lookup(m0.cache, TicketKey(instanceName, id));
      swept', toRemove' := swept, toRemove;
      if found.Some? && Expired(found.value, now) {
        var t := found.value;
        swept' := swept + [t];
        toRemove' := toRemove + [id];
        inMemoryCache := inMemoryCache - {TicketKey(instanceName, t.id)};
        var name := PriorityName(t.priority);
        if name in priorityTickets {
          priorityTickets := priorityTickets[name := priorityTickets[name] - {t.id}];
        }
        assert Memory() == RemoveTicket(m0, instanceName, t);
      }
    }

    /** The deferred removal of the selected ids from the fallback closed set. */
    method DropClosed(toRemove: seq<string>)
      modifies this`closedTickets
      ensures closedTickets == old(closedTickets) - set id | id in toRemove
    {
      for k := 0 to |toRemove|
        invariant closedTickets == old(closedTickets) - set id | id in toRemove[..k]
      {
        assert toRemove[..k + 1] == toRemove[..k] + [toRemove[k]];
        closedTickets := closedTickets - {toRemove[k]};
      }
      assert toRemove[..|toRemove|] == toRemove;
    }

    /** `TestConnectionAsync`: primary call 0 writes a probe key, call 1 reads it back. */
    method TestConnection(f: Fault) returns (ok: bool)
      modifies this`useRedis
      ensures ok <==> old(useRedis) && !Hits(f, 0) && !Hits(f, 1)
      ensures useRedis == ok
    {
      if !useRedis {
        return false;
      }
      if Hits(f, 0) || Hits(f, 1) {
        useRedis := false;
        return false;
      }
      return true;
    }
  }
}
