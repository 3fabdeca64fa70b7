/** The stand-in processor (`TicketProcessorService`): one run visits the
    high, medium and low tiers in that order, each time caching one
    placeholder ticket of that tier and notifying technicians about it; a
    notification that throws ends the run with a failure result. */
module ProcessorService {
  import opened Tickets

  /** The tier names in the order the run visits them. */
  const TierNames: seq<string> := ["high", "medium", "low"]

  /** `GetPriorityFromString`: a priority name in any letter case, anything else Low. */
  function PriorityFromString(s: string): (p: Priority)
    ensures ParsePriority(s).Some? ==> p == ParsePriority(s).value
    ensures ParsePriority(s).None? ==> p == Low
  {
    match ParsePriority(s)
    case Some(q) => q
    case None => Low
  }

  /** Every tier name maps back to its own priority, in any letter case. */
  lemma PriorityFromStringRoundTrip(p: Priority)
    ensures PriorityFromString(PriorityName(p)) == p
    ensures PriorityFromString(PriorityTitle(p)) == p
  {
    ParsePriorityRoundTrip(p);
  }

  /** The placeholder ticket a tier pass caches. */
  function Placeholder(tier: string, id: string, now: int): (t: Ticket)
    ensures t.id == id && t.status == Open && t.priority == PriorityFromString(tier) && t.dateUploaded == now
  {
    Ticket(id, "Test " + tier + " priority ticket", "This is a test ticket for demonstration purposes",
           "testuser@example.com", PriorityFromString(tier), Open, [], now)
  }

  /** How many tier passes write to the cache: up to and including the first
      whose notification throws. */
  function Visited(notifyOk: seq<bool>): (n: nat)
    requires |notifyOk| == 3
    ensures 1 <= n <= 3
    ensures forall k :: 0 <= k < n - 1 ==> notifyOk[k]
    ensures n < 3 ==> !notifyOk[n - 1]
  {
    if !notifyOk[0] then 1 else if !notifyOk[1] then 2 else 3
  }

  /** The cache after the first `n` tier passes. */
  function CacheAfter(cache: map<string, Ticket>, ids: seq<string>, now: int, n: nat): (r: map<string, Ticket>)
    requires n <= |ids| && n <= |TierNames|
    ensures cache.Keys <= r.Keys
    decreases n
  {
    if n == 0 then cache
    else CacheAfter(cache, ids, now, n - 1)[ids[n - 1] := Placeholder(TierNames[n - 1], ids[n - 1], now)]
  }

  class TicketProcessorService {
    var ticketCache: map<string, Ticket>

    constructor()
      ensures ticketCache == map[]
    {
      ticketCache := map[];
    }

    /** `ProcessPriorityTicketsAsync`: `id` is the generated id, `notifyOk`
        whether the notification returns; false means it threw. */
    method ProcessPriorityTickets(tier: string, id: string, now: int, notifyOk: bool) returns (ok: bool)
      modifies this
      ensures ticketCache == old(ticketCache)[id := Placeholder(tier, id, now)]
      ensures ok == notifyOk
    {
      var t := Placeholder(tier, id, now);
      ticketCache := ticketCache[t.id := t];
      ok := notifyOk;
    }

    /** `ProcessTicketsAsync`: `success` is false when a pass threw. */
    method ProcessTickets(ids: seq<string>, now: int, notifyOk: seq<bool>) returns (success: bool)
      requires |ids| == 3 && |notifyOk| == 3
      modifies this
      ensures success <==> notifyOk[0] && notifyOk[1] && notifyOk[2]
      ensures ticketCache == CacheAfter(old(ticketCache), ids, now, Visited(notifyOk))
    {
      var ok := ProcessPriorityTickets("high", ids[0], now, notifyOk[0]);
      if !ok {
        return false;
      }
      ok := ProcessPriorityTickets("medium", ids[1], now, notifyOk[1]);
      if !ok {
        return false;
      }
      ok := ProcessPriorityTickets("low", ids[2], now, notifyOk[2]);
      return ok;
    }
  }

  /** Each visited tier leaves exactly one open ticket of that tier's priority
      under its own id; with no failing notification all three tiers are
      visited, whatever the others found (there is no cascade). */
  lemma {:induction false} CacheAfterHoldsPlaceholders(cache: map<string, Ticket>, ids: seq<string>, now: int, n: nat, k: nat)
    requires n <= |ids| && n <= |TierNames| && k < n
    requires forall i, j :: 0 <= i < j < n ==> ids[i] != ids[j]
    ensures var r := CacheAfter(cache, ids, now, n);
            && ids[k] in r
            && r[ids[k]] == Placeholder(TierNames[k], ids[k], now)
            && r[ids[k]].priority == [High, Medium, Low][k]
            && r[ids[k]].status == Open
    decreases n
  {
    if k < n - 1 {
      CacheAfterHoldsPlaceholders(cache, ids, now, n - 1, k);
    }
    PriorityFromStringRoundTrip(High);
    PriorityFromStringRoundTrip(Medium);
    PriorityFromStringRoundTrip(Low);
  }

  /** Only the visited tiers' ids are written. */
  lemma {:induction false} CacheAfterFrame(cache: map<string, Ticket>, ids: seq<string>, now: int, n: nat, key: string)
    requires n <= |ids| && n <= |TierNames|
    requires forall k :: 0 <= k < n ==> ids[k] != key
    ensures key in CacheAfter(cache, ids, now, n) <==> key in cache
    ensures key in cache ==> CacheAfter(cache, ids, now, n)[key] == cache[key]
    decreases n
  {
    if n > 0 {
      CacheAfterFrame(cache, ids, now, n - 1, key);
    }
  }
}
