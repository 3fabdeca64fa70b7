/** The HTTP-triggered processor (`FunctionController`): per tier, pull a batch
    from the tier's subscription, keep the messages whose body decodes to a
    ticket of that tier, acknowledge them in one call, then save each kept
    ticket to the cache and notify technicians; tiers are tried High, Medium,
    Low, stopping at the first that processed something or failed. */
module Dispatcher {
  import opened Tickets
  import opened CacheStore
  import opened AckTracker

  /** `MaxMessages` of the tier pull. */
  const FetchBatchSize: nat := 10

  /** The decode-and-filter loop: a (ticket, ack id) pair for every message whose
      body decodes to a ticket of priority `p`; the others are dropped. */
  function Kept(ms: seq<ReceivedMessage>, p: Priority): (r: seq<(Ticket, string)>)
    ensures |r| <= |ms|
    ensures forall k :: 0 <= k < |r| ==> r[k].0.priority == p
    decreases |ms|
  {
    if ms == [] then []
    else
      var m := ms[|ms| - 1];
      Kept(ms[..|ms| - 1], p)
        + (if m.message.data.Json? && m.message.data.ticket.priority == p then [(m.message.data.ticket, m.ackId)] else [])
  }

  function Firsts(kept: seq<(Ticket, string)>): (ts: seq<Ticket>)
    ensures |ts| == |kept| && forall k :: 0 <= k < |kept| ==> ts[k] == kept[k].0
  {
    seq(|kept|, k requires 0 <= k < |kept| => kept[k].0)
  }

  function Seconds(kept: seq<(Ticket, string)>): (ids: seq<string>)
    ensures |ids| == |kept| && forall k :: 0 <= k < |kept| ==> ids[k] == kept[k].1
  {
    seq(|kept|, k requires 0 <= k < |kept| => kept[k].1)
  }

  /** A fetched batch: the kept tickets and the ack ids sent in the one
      acknowledge call (none when nothing was kept). */
  datatype Fetched = Fetched(tickets: seq<Ticket>, acked: seq<string>)

  /** `GetTicketsFromPubSubAsync`. `pull` is the pulled batch, or `None` if the
      pull throws; `ackSucceeds` says whether the acknowledge call returns. */
  function Fetch(pull: Option<seq<ReceivedMessage>>, p: Priority, ackSucceeds: bool): (r: Outcome<Fetched>)
    ensures r.Threw? <==> pull.None? || (|Kept(pull.value, p)| > 0 && !ackSucceeds)
    ensures r.Done? ==> && r.value.tickets == Firsts(Kept(pull.value, p))
                        && r.value.acked == Seconds(Kept(pull.value, p))
                        && (forall t :: t in r.value.tickets ==> t.priority == p)
  {
    match pull
    case None => Threw
    case Some(ms) =>
      var kept := Kept(ms, p);
      if |kept| > 0 && !ackSucceeds then Threw
      else Done(Fetched(Firsts(kept), Seconds(kept)))
  }

  /** A kept pair is exactly a pulled delivery whose body decodes to a ticket of the tier. */
  lemma {:induction false} KeptMembers(ms: seq<ReceivedMessage>, p: Priority, t: Ticket, ackId: string)
    ensures (t, ackId) in Kept(ms, p)
        <==> t.priority == p && exists i :: 0 <= i < |ms| && ms[i].ackId == ackId && ms[i].message.data == Json(t)
    decreases |ms|
  {
    if ms != [] {
      var init := ms[..|ms| - 1];
      KeptMembers(init, p, t, ackId);
      if exists i :: 0 <= i < |init| && init[i].ackId == ackId && init[i].message.data == Json(t) {
        var i :| 0 <= i < |init| && init[i].ackId == ackId && init[i].message.data == Json(t);
        assert ms[i] == init[i];
      }
      if exists i :: 0 <= i < |ms| && ms[i].ackId == ackId && ms[i].message.data == Json(t) {
        var i :| 0 <= i < |ms| && ms[i].ackId == ackId && ms[i].message.data == Json(t);
        if i < |init| {
          assert init[i] == ms[i];
        }
      }
    }
  }

  /** Malformed deliveries and deliveries of other tiers never reach the batch,
      and nothing is acknowledged unless something was kept. */
  lemma FetchDropsOthers(ms: seq<ReceivedMessage>, p: Priority, ok: bool, i: nat)
    requires i < |ms| && |ms| <= FetchBatchSize
    requires ms[i].message.data.Malformed? || ms[i].message.data.ticket.priority != p
    requires Fetch(Some(ms), p, ok).Done?
    ensures forall t :: (t, ms[i].ackId) in Kept(ms, p) ==> exists j :: 0 <= j < |ms| && j != i && ms[j].ackId == ms[i].ackId
  {
    forall t | (t, ms[i].ackId) in Kept(ms, p)
      ensures exists j :: 0 <= j < |ms| && j != i && ms[j].ackId == ms[i].ackId
    {
      KeptMembers(ms, p, t, ms[i].ackId);
    }
  }

  // ---------------------------------------------------------------------
  // Processing a batch and the cascade

  /** The cache after saving `ts` in order; `faults(k)` is the fault of the k-th save. */
  function SaveAll(s: CacheState, prefix: string, ts: seq<Ticket>, faults: nat -> Fault): (r: CacheState)
    requires HasTierSets(s.memory)
    ensures HasTierSets(r.memory)
    ensures Consistent(s, prefix) ==> Consistent(r, prefix)
    ensures r.useRedis ==> s.useRedis
    decreases |ts|
  {
    if ts == [] then s
    else Save(SaveAll(s, prefix, ts[..|ts| - 1], faults), prefix, ts[|ts| - 1], faults(|ts| - 1))
  }

  /** The tickets whose notification went out, in batch order; a failed
      notification is skipped and the batch goes on. */
  function Notified(ts: seq<Ticket>, notifyOk: nat -> bool): (r: seq<Ticket>)
    ensures |r| <= |ts|
    decreases |ts|
  {
    if ts == [] then []
    else Notified(ts[..|ts| - 1], notifyOk) + (if notifyOk(|ts| - 1) then [ts[|ts| - 1]] else [])
  }

  /** How a tier went: processed a non-empty batch, found nothing, or threw. */
  datatype TierReport = Processed | NothingFound | Failed

  function Report(fetch: Outcome<Fetched>): TierReport {
    match fetch
    case Threw => Failed
    case Done(b) => if |b.tickets| > 0 then Processed else NothingFound
  }

  /** How tier `p` goes, given the pulled batches and ack results of every tier. */
  function ReportOf(pulls: Priority -> Option<seq<ReceivedMessage>>, ackOk: Priority -> bool, p: Priority): TierReport {
    Report(Fetch(pulls(p), p, ackOk(p)))
  }

  /** The tickets a fetch delivers; a fetch that threw delivers none. */
  function Batch(fetch: Outcome<Fetched>): seq<Ticket> {
    if fetch.Done? then fetch.value.tickets else []
  }

  /** What `ProcessPriorityTicketsAsync` returns after a fetch: `Done(true)` when
      a batch was processed, `Done(false)` when there was none, `Threw` when the
      fetch threw. */
  function RunResult(fetch: Outcome<Fetched>): Outcome<bool> {
    if fetch.Done? then Done(|fetch.value.tickets| > 0) else Threw
  }

  /** The batch tier `p` delivers. */
  function TierBatch(pulls: Priority -> Option<seq<ReceivedMessage>>, ackOk: Priority -> bool, p: Priority): seq<Ticket> {
    Batch(Fetch(pulls(p), p, ackOk(p)))
  }

  /** The tiers `ProcessTickets` tries, in order, given how each would go. */
  function Cascade(high: TierReport, medium: TierReport): (tried: seq<Priority>)
    ensures 1 <= |tried| <= 3 && tried == [High, Medium, Low][..|tried|]
    ensures Medium in tried <==> high == NothingFound
    ensures Low in tried <==> high == NothingFound && medium == NothingFound
  {
    if high != NothingFound then [High]
    else if medium != NothingFound then [High, Medium]
    else [High, Medium, Low]
  }

  /** The cache after the cascade: each tried tier's fetched batch saved in order. */
  function SaveTiers(s: CacheState, prefix: string, tiers: seq<Priority>,
                     pulls: Priority -> Option<seq<ReceivedMessage>>, ackOk: Priority -> bool,
                     faults: Priority -> nat -> Fault): (r: CacheState)
    requires HasTierSets(s.memory)
    ensures HasTierSets(r.memory)
    ensures Consistent(s, prefix) ==> Consistent(r, prefix)
    decreases |tiers|
  {
    if tiers == [] then s
    else
      var p := tiers[|tiers| - 1];
      SaveAll(SaveTiers(s, prefix, tiers[..|tiers| - 1], pulls, ackOk, faults), prefix, TierBatch(pulls, ackOk, p), faults(p))
  }

  /** The ack ids a fetch acknowledged: none when the pull or the ack call threw. */
  function FetchAcks(fetch: Outcome<Fetched>): seq<string> {
    if fetch.Done? then fetch.value.acked else []
  }

  /** The ack ids acknowledged by the tiers `tiers`, tier by tier. */
  function AckedTiers(pulls: Priority -> Option<seq<ReceivedMessage>>, ackOk: Priority -> bool,
                      tiers: seq<Priority>): seq<string>
    decreases |tiers|
  {
    if tiers == [] then []
    else
      var p := tiers[|tiers| - 1];
      AckedTiers(pulls, ackOk, tiers[..|tiers| - 1]) + FetchAcks(Fetch(pulls(p), p, ackOk(p)))
  }

  /** The tickets notified by the tiers `tiers`, tier by tier. */
  function NotifiedTiers(pulls: Priority -> Option<seq<ReceivedMessage>>, ackOk: Priority -> bool,
                         notifyOk: Priority -> nat -> bool, tiers: seq<Priority>): seq<Ticket>
    decreases |tiers|
  {
    if tiers == [] then []
    else
      var p := tiers[|tiers| - 1];
      NotifiedTiers(pulls, ackOk, notifyOk, tiers[..|tiers| - 1]) + Notified(TierBatch(pulls, ackOk, p), notifyOk(p))
  }

  /** `FunctionController`: the cache it writes to. The Pub/Sub pulls, the ack
      calls, the cache faults and the e-mail results are inputs per tier. */
  class FunctionController {
    const cache: RedisService

    constructor(cache: RedisService)
      ensures this.cache == cache
    {
      this.cache := cache;
    }

    /** `ProcessPriorityTicketsAsync`: `Done(true)` when a batch was processed,
        `Done(false)` when there was none, `Threw` when the fetch threw. */
    method ProcessPriorityTickets(p: Priority, pull: Option<seq<ReceivedMessage>>, ackSucceeds: bool,
                                  saveFaults: nat -> Fault, notifyOk: nat -> bool)
      returns (r: Outcome<bool>, acked: seq<string>, notified: seq<Ticket>)
      requires cache.Valid()
      requires pull.Some? ==> |pull.value| <= FetchBatchSize
      modifies cache
      ensures cache.Valid()
      ensures r == RunResult(Fetch(pull, p, ackSucceeds))
      ensures acked == FetchAcks(Fetch(pull, p, ackSucceeds))
      ensures cache.State() == SaveAll(old(cache.State()), cache.instanceName, Batch(Fetch(pull, p, ackSucceeds)), saveFaults)
      ensures notified == Notified(Batch(Fetch(pull, p, ackSucceeds)), notifyOk)
    {
      notified := [];
      var fetch := Fetch(pull, p, ackSucceeds);
      if fetch.Threw? {
        return Threw, [], [];
      }
      acked := fetch.value.acked;
      var tickets := fetch.value.tickets;
      if |tickets| == 0 {
        return Done(false), acked, [];
      }
      ghost var s0 := cache.State();
      var processed := false;
      var i := 0;
      while i < |tickets|
        invariant 0 <= i <= |tickets|
        invariant cache.Valid()
        invariant processed <==> i > 0
        invariant cache.State() == SaveAll(s0, cache.instanceName, tickets[..i], saveFaults)
        invariant notified == Notified(tickets[..i], notifyOk)
      {
        var t := tickets[i];
        SaveAllSnoc(s0, cache.instanceName, tickets, i, saveFaults);
        NotifiedSnoc(tickets, i, notifyOk);
        cache.SaveTicket(t, saveFaults(i));
        if notifyOk(i) {
          notified := notified + [t];
        }
        processed := true;
        i := i + 1;
      }
      assert tickets[..i] == tickets;
      return Done(processed), acked, notified;
    }

    /** `ProcessTickets`: `ok` is false when a tier threw (the HTTP 500 path).
        `tried` records each tier as its run starts; `acked` and `notified`
        gather what the runs of the tried tiers acknowledged and notified. */
    method ProcessTickets(pulls: Priority -> Option<seq<ReceivedMessage>>, ackOk: Priority -> bool,
                          saveFaults: Priority -> nat -> Fault, notifyOk: Priority -> nat -> bool)
      returns (ok: bool, tried: seq<Priority>, acked: seq<string>, notified: seq<Ticket>)
      requires cache.Valid()
      requires forall p :: pulls(p).Some? ==> |pulls(p).value| <= FetchBatchSize
      modifies cache
      ensures cache.Valid()
      ensures tried == Cascade(ReportOf(pulls, ackOk, High), ReportOf(pulls, ackOk, Medium))
      ensures ok <==> ReportOf(pulls, ackOk, tried[|tried| - 1]) != Failed
      ensures acked == AckedTiers(pulls, ackOk, tried)
      ensures notified == NotifiedTiers(pulls, ackOk, notifyOk, tried)
      ensures cache.State() == SaveTiers(old(cache.State()), cache.instanceName, tried, pulls, ackOk, saveFaults)
    {
      ghost var s0 := cache.State();
      tried, acked, notified := [], [], [];
      var r;
      r, tried, acked, notified := RunTier(High, pulls, ackOk, saveFaults, notifyOk, s0, tried, acked, notified);
      if r == Done(false) {
        r, tried, acked, notified := RunLowerTiers(pulls, ackOk, saveFaults, notifyOk, s0, tried, acked, notified);
      }
      ok := r.Done?;
      CascadeCases(ReportOf(pulls, ackOk, High), ReportOf(pulls, ackOk, Medium));
    }

    /** The branch of `ProcessTickets` taken when the high tier found nothing:
        the medium tier runs, and the low tier after it when it found nothing. */
    method RunLowerTiers(pulls: Priority -> Option<seq<ReceivedMessage>>, ackOk: Priority -> bool,
                         saveFaults: Priority -> nat -> Fault, notifyOk: Priority -> nat -> bool, ghost s0: CacheState,
                         tried: seq<Priority>, acked: seq<string>, notified: seq<Ticket>)
      returns (r: Outcome<bool>, tried': seq<Priority>, acked': seq<string>, notified': seq<Ticket>)
      requires cache.Valid() && HasTierSets(s0.memory)
      requires forall p :: pulls(p).Some? ==> |pulls(p).value| <= FetchBatchSize
      requires acked == AckedTiers(pulls, ackOk, tried)
      requires notified == NotifiedTiers(pulls, ackOk, notifyOk, tried)
      requires cache.State() == SaveTiers(s0, cache.instanceName, tried, pulls, ackOk, saveFaults)
      modifies cache
      ensures cache.Valid()
      ensures ReportOf(pulls, ackOk, Medium) != NothingFound ==> tried' == tried + [Medium]
      ensures ReportOf(pulls, ackOk, Medium) == NothingFound ==> tried' == tried + [Medium] + [Low]
      ensures r.Done? <==> ReportOf(pulls, ackOk, tried'[|tried'| - 1]) != Failed
      ensures acked' == AckedTiers(pulls, ackOk, tried')
      ensures notified' == NotifiedTiers(pulls, ackOk, notifyOk, tried')
      ensures cache.State() == SaveTiers(s0, cache.instanceName, tried', pulls, ackOk, saveFaults)
    {
      r, tried', acked', notified' := RunTier(Medium, pulls, ackOk, saveFaults, notifyOk, s0, tried, acked, notified);
      if r == Done(false) {
        r, tried', acked', notified' := RunTier(Low, pulls, ackOk, saveFaults, notifyOk, s0, tried', acked', notified');
      }
    }

    /** One branch of `ProcessTickets`: tier `p` is recorded as tried and run,
        and its acks, notifications and saves follow those of the tiers before. */
    method RunTier(p: Priority, pulls: Priority -> Option<seq<ReceivedMessage>>, ackOk: Priority -> bool,
                   saveFaults: Priority -> nat -> Fault, notifyOk: Priority -> nat -> bool, ghost s0: CacheState,
                   tried: seq<Priority>, acked: seq<string>, notified: seq<Ticket>)
      returns (r: Outcome<bool>, tried': seq<Priority>, acked': seq<string>, notified': seq<Ticket>)
      requires cache.Valid() && HasTierSets(s0.memory)
      requires pulls(p).Some? ==> |pulls(p).value| <= FetchBatchSize
      requires acked == AckedTiers(pulls, ackOk, tried)
      requires notified == NotifiedTiers(pulls, ackOk, notifyOk, tried)
      requires cache.State() == SaveTiers(s0, cache.instanceName, tried, pulls, ackOk, saveFaults)
      modifies cache
      ensures cache.Valid()
      ensures r == RunResult(Fetch(pulls(p), p, ackOk(p)))
      ensures r == Done(false) <==> ReportOf(pulls, ackOk, p) == NothingFound
      ensures r.Done? <==> ReportOf(pulls, ackOk, p) != Failed
      ensures tried' == tried + [p] && tried'[|tried'| - 1] == p
      ensures acked' == AckedTiers(pulls, ackOk, tried')
      ensures notified' == NotifiedTiers(pulls, ackOk, notifyOk, tried')
      ensures cache.State() == SaveTiers(s0, cache.instanceName, tried', pulls, ackOk, saveFaults)
    {
      tried' := tried + [p];
      TiersSnoc(s0, cache.instanceName, tried, p, pulls, ackOk, saveFaults, notifyOk);
      var a, n;
      r, a, n := ProcessPriorityTickets(p, pulls(p), ackOk(p), saveFaults(p), notifyOk(p));
      TierOutcome(pulls, ackOk, p, r);
      acked', notified' := acked + a, notified + n;
    }
  }

  /** Saving one more ticket of a batch. */
  lemma SaveAllSnoc(s: CacheState, prefix: string, ts: seq<Ticket>, k: nat, faults: nat -> Fault)
    requires HasTierSets(s.memory) && k < |ts|
    ensures SaveAll(s, prefix, ts[..k + 1], faults) == Save(SaveAll(s, prefix, ts[..k], faults), prefix, ts[k], faults(k))
  {
    assert ts[..k + 1][..k] == ts[..k];
  }

  /** Notifying one more ticket of a batch. */
  lemma NotifiedSnoc(ts: seq<Ticket>, k: nat, notifyOk: nat -> bool)
    requires k < |ts|
    ensures Notified(ts[..k + 1], notifyOk) == Notified(ts[..k], notifyOk) + (if notifyOk(k) then [ts[k]] else [])
  {
    assert ts[..k + 1][..k] == ts[..k];
  }

  /** How one tier's result reads as its report. */
  lemma TierOutcome(pulls: Priority -> Option<seq<ReceivedMessage>>, ackOk: Priority -> bool, p: Priority,
                    r: Outcome<bool>)
    requires r == RunResult(Fetch(pulls(p), p, ackOk(p)))
    ensures r == Done(false) <==> ReportOf(pulls, ackOk, p) == NothingFound
    ensures r.Done? <==> ReportOf(pulls, ackOk, p) != Failed
  {
  }

  /** The three shapes the cascade takes. */
  lemma CascadeCases(high: TierReport, medium: TierReport)
    ensures high != NothingFound ==> Cascade(high, medium) == [High]
    ensures high == NothingFound && medium != NothingFound ==> Cascade(high, medium) == [High, Medium]
    ensures high == NothingFound && medium == NothingFound ==> Cascade(high, medium) == [High, Medium, Low]
  {
  }

  /** Running one more tier extends the saves, the acks and the notifications
      of the tiers before it. */
  lemma TiersSnoc(s: CacheState, prefix: string, tiers: seq<Priority>, p: Priority,
                  pulls: Priority -> Option<seq<ReceivedMessage>>, ackOk: Priority -> bool,
                  faults: Priority -> nat -> Fault, notifyOk: Priority -> nat -> bool)
    requires HasTierSets(s.memory)
    ensures SaveTiers(s, prefix, tiers + [p], pulls, ackOk, faults)
         == SaveAll(SaveTiers(s, prefix, tiers, pulls, ackOk, faults), prefix, TierBatch(pulls, ackOk, p), faults(p))
    ensures AckedTiers(pulls, ackOk, tiers + [p]) == AckedTiers(pulls, ackOk, tiers) + FetchAcks(Fetch(pulls(p), p, ackOk(p)))
    ensures NotifiedTiers(pulls, ackOk, notifyOk, tiers + [p])
         == NotifiedTiers(pulls, ackOk, notifyOk, tiers) + Notified(TierBatch(pulls, ackOk, p), notifyOk(p))
  {
    assert (tiers + [p])[..|tiers|] == tiers;
  }

  // ---------------------------------------------------------------------
  // Properties

  /** Every ticket of a batch is notified unless its own notification failed. */
  lemma {:induction false} NotifiedMembers(ts: seq<Ticket>, notifyOk: nat -> bool, k: nat)
    requires k < |ts| && notifyOk(k)
    ensures ts[k] in Notified(ts, notifyOk)
    decreases |ts|
  {
    if k < |ts| - 1 {
      NotifiedMembers(ts[..|ts| - 1], notifyOk, k);
    }
  }

  /** The fault oracle of a run in which no cache call fails. */
  function NoFaults(i: nat): Fault { NoFault }

  /** Without cache failures every ticket of a batch is written to the tier the
      flag selects, and the last ticket saved under an id is the one stored. */
  lemma {:induction false} SaveAllStoresBatch(s: CacheState, prefix: string, ts: seq<Ticket>, k: nat)
    requires HasTierSets(s.memory) && k < |ts|
    requires forall j :: k < j < |ts| ==> ts[j].id != ts[k].id
    ensures var r := SaveAll(s, prefix, ts, NoFaults);
            && r.useRedis == s.useRedis
            && (s.useRedis ==> Lookup(r.primary.strings, TicketKey(prefix, ts[k].id)) == Some(ts[k]))
            && (!s.useRedis ==> Lookup(r.memory.cache, TicketKey(prefix, ts[k].id)) == Some(ts[k]))
    decreases |ts|
  {
    var init := ts[..|ts| - 1];
    var last := ts[|ts| - 1];
    var before := SaveAll(s, prefix, init, NoFaults);
    if k < |ts| - 1 {
      SaveAllStoresBatch(s, prefix, init, k);
      SaveKeepsStored(before, prefix, last, ts[k]);
    } else {
      SaveAllKeepsFlag(s, prefix, init);
      SaveStores(before, prefix, last);
    }
  }

  /** A save without failures keeps the flag and stores the ticket on the tier it selects. */
  lemma SaveStores(s: CacheState, prefix: string, t: Ticket)
    requires HasTierSets(s.memory)
    ensures var r := Save(s, prefix, t, NoFault);
            && r.useRedis == s.useRedis
            && (s.useRedis ==> Lookup(r.primary.strings, TicketKey(prefix, t.id)) == Some(t))
            && (!s.useRedis ==> Lookup(r.memory.cache, TicketKey(prefix, t.id)) == Some(t))
  {
  }

  /** Saving a ticket under another id keeps an earlier ticket where it was stored. */
  lemma SaveKeepsStored(s: CacheState, prefix: string, t: Ticket, earlier: Ticket)
    requires HasTierSets(s.memory) && t.id != earlier.id
    requires s.useRedis ==> Lookup(s.primary.strings, TicketKey(prefix, earlier.id)) == Some(earlier)
    requires !s.useRedis ==> Lookup(s.memory.cache, TicketKey(prefix, earlier.id)) == Some(earlier)
    ensures var r := Save(s, prefix, t, NoFault);
            && r.useRedis == s.useRedis
            && (s.useRedis ==> Lookup(r.primary.strings, TicketKey(prefix, earlier.id)) == Some(earlier))
            && (!s.useRedis ==> Lookup(r.memory.cache, TicketKey(prefix, earlier.id)) == Some(earlier))
  {
    if TicketKey(prefix, t.id) == TicketKey(prefix, earlier.id) {
      TicketKeyInjective(prefix, t.id, earlier.id);
    }
    SaveKeepsOtherPayloads(s, prefix, t, TicketKey(prefix, earlier.id));
  }

  /** A save without failures leaves the payload under every other key alone. */
  lemma SaveKeepsOtherPayloads(s: CacheState, prefix: string, t: Ticket, key: string)
    requires HasTierSets(s.memory) && key != TicketKey(prefix, t.id)
    ensures Lookup(Save(s, prefix, t, NoFault).primary.strings, key) == Lookup(s.primary.strings, key)
    ensures Lookup(Save(s, prefix, t, NoFault).memory.cache, key) == Lookup(s.memory.cache, key)
  {
  }

  /** Without cache failures the flag does not change. */
  lemma {:induction false} SaveAllKeepsFlag(s: CacheState, prefix: string, ts: seq<Ticket>)
    requires HasTierSets(s.memory)
    ensures SaveAll(s, prefix, ts, NoFaults).useRedis == s.useRedis
    decreases |ts|
  {
    if ts != [] {
      SaveAllKeepsFlag(s, prefix, ts[..|ts| - 1]);
    }
  }

  /** The run acknowledges High's kept deliveries, Medium's only when High found
      nothing, and Low's only when both found nothing. */
  lemma CascadeAcks(pulls: Priority -> Option<seq<ReceivedMessage>>, ackOk: Priority -> bool, id: string)
    ensures var high := ReportOf(pulls, ackOk, High);
            var medium := ReportOf(pulls, ackOk, Medium);
            id in AckedTiers(pulls, ackOk, Cascade(high, medium))
            <==> || id in FetchAcks(Fetch(pulls(High), High, ackOk(High)))
                 || (high == NothingFound && id in FetchAcks(Fetch(pulls(Medium), Medium, ackOk(Medium))))
                 || (high == NothingFound && medium == NothingFound && id in FetchAcks(Fetch(pulls(Low), Low, ackOk(Low))))
  {
    var high := ReportOf(pulls, ackOk, High);
    var medium := ReportOf(pulls, ackOk, Medium);
    CascadeCases(high, medium);
    assert [High, Medium, Low][..2] == [High, Medium];
    assert [High, Medium][..1] == [High];
    assert [High][..0] == [];
  }

  /** A tier is processed exactly when its fetch returns a non-empty batch, and
      nothing is acknowledged for a tier that found nothing. */
  lemma ProcessedIffNonEmpty(pull: Option<seq<ReceivedMessage>>, p: Priority, ok: bool)
    ensures Report(Fetch(pull, p, ok)) == Processed
        <==> pull.Some? && |Kept(pull.value, p)| > 0 && ok
    ensures Report(Fetch(pull, p, ok)) == NothingFound ==> Fetch(pull, p, ok).value.acked == []
  {
  }
}
