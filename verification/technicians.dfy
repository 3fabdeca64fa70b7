/** The technician endpoints (`TechniciansController`): all open tickets, open
    tickets of one priority, closing any ticket, and the dashboard with
    per-priority counts and the five most recently uploaded open tickets. */
module Technicians {
  import opened Tickets
  import opened CacheStore
  import opened AckTracker
  import opened Firestore
  import opened Workflows

  /** How many tickets the dashboard lists as recent. */
  const RecentLimit: nat := 5

  /** The number of tickets of priority `p`. */
  function CountOf(ts: seq<Ticket>, p: Priority): (n: nat)
    ensures n <= |ts|
    decreases |ts|
  {
    if ts == [] then 0
    else CountOf(ts[..|ts| - 1], p) + (if ts[|ts| - 1].priority == p then 1 else 0)
  }

  /** Newest upload first. */
  predicate NewestFirst(ts: seq<Ticket>) {
    forall i, j :: 0 <= i < j < |ts| ==> ts[i].dateUploaded >= ts[j].dateUploaded
  }

  /** Every ticket of `ts` is at most as new as `h`. */
  predicate NoNewerThan(h: Ticket, ts: seq<Ticket>) {
    forall i :: 0 <= i < |ts| ==> h.dateUploaded >= ts[i].dateUploaded
  }

  lemma ConsNewestFirst(h: Ticket, ts: seq<Ticket>)
    requires NoNewerThan(h, ts) && NewestFirst(ts)
    ensures NewestFirst([h] + ts)
  {
    var r := [h] + ts;
    forall i, j | 0 <= i < j < |r| ensures r[i].dateUploaded >= r[j].dateUploaded {
      assert r[j] == ts[j - 1];
      if i > 0 {
        assert r[i] == ts[i - 1];
      }
    }
  }

  lemma NoNewerThanByMultiset(h: Ticket, ts: seq<Ticket>, r: seq<Ticket>, t: Ticket)
    requires NoNewerThan(h, ts) && h.dateUploaded >= t.dateUploaded
    requires multiset(r) == multiset(ts) + multiset{t}
    ensures NoNewerThan(h, r)
  {
    forall i | 0 <= i < |r| ensures h.dateUploaded >= r[i].dateUploaded {
      assert r[i] in multiset(r);
      if r[i] != t {
        assert r[i] in multiset(ts);
        var k :| 0 <= k < |ts| && ts[k] == r[i];
      }
    }
  }

  lemma NewestFirstTail(ts: seq<Ticket>)
    requires NewestFirst(ts) && ts != []
    ensures NewestFirst(ts[1..]) && NoNewerThan(ts[0], ts[1..])
  {
    forall i | 0 <= i < |ts| - 1 ensures ts[0].dateUploaded >= ts[1..][i].dateUploaded {
      assert ts[1..][i] == ts[i + 1];
    }
  }

  /** Inserts `t` after every ticket at least as new, so earlier tickets of
      equal date stay first. */
  function InsertByDate(t: Ticket, ts: seq<Ticket>): (r: seq<Ticket>)
    requires NewestFirst(ts)
    ensures |r| == |ts| + 1
    ensures NewestFirst(r)
    ensures multiset(r) == multiset(ts) + multiset{t}
    decreases |ts|
  {
    if ts == [] then [t]
    else if ts[0].dateUploaded >= t.dateUploaded then
      NewestFirstTail(ts);
      var rest := InsertByDate(t, ts[1..]);
      NoNewerThanByMultiset(ts[0], ts[1..], rest, t);
      ConsNewestFirst(ts[0], rest);
      assert ts == [ts[0]] + ts[1..];
      [ts[0]] + rest
    else
      assert NoNewerThan(t, ts);
      ConsNewestFirst(t, ts);
      [t] + ts
  }

  /** `OrderByDescending(t => t.DateUploaded)`. */
  function SortNewestFirst(ts: seq<Ticket>): (r: seq<Ticket>)
    ensures |r| == |ts|
    ensures NewestFirst(r)
    ensures multiset(r) == multiset(ts)
    decreases |ts|
  {
    if ts == [] then []
    else
      assert ts == ts[..|ts| - 1] + [ts[|ts| - 1]];
      InsertByDate(ts[|ts| - 1], SortNewestFirst(ts[..|ts| - 1]))
  }

  datatype Dashboard = Dashboard(total: nat, high: nat, medium: nat, low: nat, recent: seq<Ticket>)

  /** The dashboard over the open tickets: counts, and `Take(5)` of the sorted list. */
  function DashboardOf(open: seq<Ticket>): (d: Dashboard)
    ensures d.total == |open|
    ensures d.high == CountOf(open, High) && d.medium == CountOf(open, Medium) && d.low == CountOf(open, Low)
    ensures |d.recent| == if |open| < RecentLimit then |open| else RecentLimit
    ensures d.recent == SortNewestFirst(open)[..|d.recent|]
  {
    var sorted := SortNewestFirst(open);
    var n := if |open| < RecentLimit then |open| else RecentLimit;
    Dashboard(|open|, CountOf(open, High), CountOf(open, Medium), CountOf(open, Low), sorted[..n])
  }

  /** The recent list is newest first, drawn from the open tickets, and no
      open ticket left out of it is newer than any ticket in it. */
  lemma RecentAreNewest(open: seq<Ticket>)
    ensures var d := DashboardOf(open);
            && NewestFirst(d.recent)
            && multiset(d.recent) <= multiset(open)
            && forall t, u :: t in d.recent && u in multiset(open) - multiset(d.recent) ==> t.dateUploaded >= u.dateUploaded
  {
    var d := DashboardOf(open);
    var sorted := SortNewestFirst(open);
    var n := |d.recent|;
    assert sorted == sorted[..n] + sorted[n..];
    assert multiset(sorted) == multiset(sorted[..n]) + multiset(sorted[n..]);
    forall t, u | t in d.recent && u in multiset(open) - multiset(d.recent)
      ensures t.dateUploaded >= u.dateUploaded
    {
      PrefixNotOlder(sorted, n, t, u);
    }
  }

  /** In a newest-first list, nothing after a prefix is newer than anything in it. */
  lemma PrefixNotOlder(sorted: seq<Ticket>, n: nat, t: Ticket, u: Ticket)
    requires NewestFirst(sorted) && n <= |sorted|
    requires t in sorted[..n] && u in multiset(sorted[n..])
    ensures t.dateUploaded >= u.dateUploaded
  {
    var i :| 0 <= i < n && sorted[i] == t;
    var j :| 0 <= j < |sorted| - n && sorted[n..][j] == u;
    assert sorted[n + j] == u;
  }

  /** The per-priority counts add up to the total. */
  lemma {:induction false} CountsSumToTotal(ts: seq<Ticket>)
    ensures CountOf(ts, High) + CountOf(ts, Medium) + CountOf(ts, Low) == |ts|
    decreases |ts|
  {
    if ts != [] {
      CountsSumToTotal(ts[..|ts| - 1]);
    }
  }

  /** The dashboard counts add up to the total. */
  lemma DashboardCountsSum(open: seq<Ticket>)
    ensures var d := DashboardOf(open); d.high + d.medium + d.low == d.total
  {
    CountsSumToTotal(open);
  }

  class TechniciansController {
    const cache: RedisService
    const pubsub: PubSubService
    const firestore: FirestoreService

    constructor(cache: RedisService, pubsub: PubSubService, firestore: FirestoreService)
      ensures this.cache == cache && this.pubsub == pubsub && this.firestore == firestore
    {
      this.cache := cache;
      this.pubsub := pubsub;
      this.firestore := firestore;
    }

    function Snapshot(): Backends
      reads cache, pubsub, firestore
    {
      Backends(cache.State(), pubsub.messageAckIds, firestore.archives)
    }

    /** `GetAllTickets`: exactly the open list of the cache. */
    method GetAllTickets(f: Fault) returns (r: Response<seq<Ticket>>, ghost order: seq<string>)
      modifies cache`useRedis
      ensures Enumerates(order, ListedIds(old(cache.State()), f, OpenSetKey(cache.instanceName), old(cache.openTickets)))
      ensures Read(cache.State(), r) == Read(ListOpen(old(cache.State()), cache.instanceName, f, order).state,
                                             Ok(ListOpen(old(cache.State()), cache.instanceName, f, order).value))
    {
      var tickets;
      tickets, order := cache.GetOpenTickets(f);
      r := Ok(tickets);
    }

    /** `GetTicketsByPriority`: a name that is not a priority is refused before the cache is read. */
    method GetTicketsByPriority(name: string, f: Fault) returns (r: Response<seq<Ticket>>, ghost order: seq<string>)
      modifies cache`useRedis
      ensures ParsePriority(name).None? ==> r == BadRequest && cache.State() == old(cache.State())
      ensures ParsePriority(name).Some? ==>
                var p := ParsePriority(name).value;
                var l := ListByPriority(old(cache.State()), cache.instanceName, p, f, order);
                && Enumerates(order, ListedIds(old(cache.State()), f, PrioritySetKey(cache.instanceName, p),
                                               TierSet(old(cache.Memory()), PriorityName(p))))
                && r == Ok(l.value) && cache.State() == l.state
    {
      var p := ParsePriority(name);
      if p.None? {
        order := [];
        return BadRequest, [];
      }
      var tickets;
      tickets, order := cache.GetTicketsByPriority(p.value, f);
      r := Ok(tickets);
    }

    /** `CloseTicket`: any ticket may be closed by a technician. */
    method CloseTicket(id: string, technician: string, now: int, getFault: Fault, closeFault: Fault,
                       ackSucceeds: bool, pull: Option<seq<ReceivedMessage>>) returns (r: Response<()>)
      requires cache.Valid()
      requires pull.Some? ==> |pull.value| <= SearchBatchSize
      modifies cache, pubsub, firestore
      ensures cache.Valid()
      ensures (r, Snapshot()) == Workflows.CloseTicket(old(Snapshot()), cache.instanceName, id, AnyTicket(technician), now,
                                                       getFault, closeFault, ackSucceeds, pull)
    {
      var found := cache.GetTicket(id, getFault);
      if found.None? {
        return NotFound;
      }
      var t := found.value;
      cache.CloseTicket(id, closeFault);
      if OlderThanRetention(t, now) {
        firestore.ArchiveTicketAsync(t, technician, now);
      }
      var ack := pubsub.AcknowledgeTicket(id, t.priority, ackSucceeds, pull);
      r := if ack.AckThrew? then ServerError else Ok(());
    }

    /** `GetDashboard`. */
    method GetDashboard(f: Fault) returns (r: Response<Dashboard>, ghost order: seq<string>)
      modifies cache`useRedis
      ensures Enumerates(order, ListedIds(old(cache.State()), f, OpenSetKey(cache.instanceName), old(cache.openTickets)))
      ensures var l := ListOpen(old(cache.State()), cache.instanceName, f, order);
              r == Ok(DashboardOf(l.value)) && cache.State() == l.state
    {
      var open;
      open, order := cache.GetOpenTickets(f);
      r := Ok(DashboardOf(open));
    }
  }
}
