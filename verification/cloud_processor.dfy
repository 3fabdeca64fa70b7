/** The Cloud Run variant of the processor (`TicketProcessorFunction`): per
    tier, pull a batch and keep the deliveries whose `priority` attribute names
    the tier (any letter case); cascade High, Medium, Low to the first
    non-empty batch; then, ticket by ticket, save to Redis under
    `ticket:{id}`, notify, and acknowledge that ticket's own delivery. */
module CloudProcessor {
  import opened Tickets
  import opened AckTracker
  import Dispatcher

  /** `MaxMessages` of the tier pull. */
  const PullLimit: nat := 10

  /** The key the function writes a ticket under (no instance prefix). */
  function StoreKey(id: string): (key: string)
    ensures |key| == |id| + 7 && key[..7] == "ticket:" && key[7..] == id
  {
    "ticket:" + id
  }

  /** Different ids never share a store key. */
  lemma StoreKeyInjective(a: string, b: string)
    requires StoreKey(a) == StoreKey(b)
    ensures a == b
  {
    assert a == StoreKey(a)[7..];
  }

  /** The delivery's `priority` attribute is present and names `tier`, ignoring case. */
  predicate TierMatches(m: ReceivedMessage, tier: string) {
    PriorityAttribute in m.message.attributes && EqualsIgnoreCase(m.message.attributes[PriorityAttribute], tier)
  }

  /** The filter loop of `GetTicketsByPriorityAsync`: (ticket, ack id) for each
      matching delivery, in order; `Threw` as soon as a matching body does not
      decode. Non-matching deliveries are never decoded. */
  function FilterByAttribute(ms: seq<ReceivedMessage>, tier: string): (r: Outcome<seq<(Ticket, string)>>)
    ensures r.Done? ==> |r.value| <= |ms|
    decreases |ms|
  {
    if ms == [] then Done([])
    else
      match FilterByAttribute(ms[..|ms| - 1], tier)
      case Threw => Threw
      case Done(kept) =>
        var m := ms[|ms| - 1];
        if !TierMatches(m, tier) then Done(kept)
        else if m.message.data.Malformed? then Threw
        else Done(kept + [(m.message.data.ticket, m.ackId)])
  }

  /** `GetTicketsByPriorityAsync`: any error (the pull, a bad body) yields an empty batch. */
  function FetchByAttribute(pull: Option<seq<ReceivedMessage>>, tier: string): (batch: seq<(Ticket, string)>)
    ensures pull.None? ==> batch == []
    ensures pull.Some? && FilterByAttribute(pull.value, tier).Threw? ==> batch == []
  {
    match pull
    case None => []
    case Some(ms) =>
      match FilterByAttribute(ms, tier)
      case Threw => []
      case Done(kept) => kept
  }

  /** The cascade report of a tier: processed when its batch is non-empty. */
  function ReportOf(pulls: Priority -> Option<seq<ReceivedMessage>>, p: Priority): Dispatcher.TierReport {
    if |FetchByAttribute(pulls(p), PriorityName(p))| > 0 then Dispatcher.Processed else Dispatcher.NothingFound
  }

  /** What processing a ticket does to the outside world, in order. */
  datatype Effect = Saved(ticketId: string) | Notified(ticketId: string) | AckSent(ackId: string)

  /** `ProcessTicketAsync` for one ticket: a failed save skips notify and ack
      (the exception is caught per ticket); a failed e-mail is swallowed; a
      failed ack is caught after the save and the notification. */
  function Step(t: Ticket, ackId: string, saveSucceeds: bool, ackSucceeds: bool): (effects: seq<Effect>)
    ensures effects == [] || effects[0] == Saved(t.id)
  {
    if !saveSucceeds then []
    else [Saved(t.id), Notified(t.id)] + (if ackSucceeds then [AckSent(ackId)] else [])
  }

  /** The effects of processing a batch in order. */
  function Trace(batch: seq<(Ticket, string)>, saveOk: nat -> bool, ackOk: nat -> bool): seq<Effect>
    decreases |batch|
  {
    if batch == [] then []
    else
      var n := |batch| - 1;
      Trace(batch[..n], saveOk, ackOk) + Step(batch[n].0, batch[n].1, saveOk(n), ackOk(n))
  }

  /** The Redis strings after processing a batch: each saved ticket stored under its key. */
  function StoreAll(store: map<string, Ticket>, batch: seq<(Ticket, string)>, saveOk: nat -> bool): (r: map<string, Ticket>)
    ensures store.Keys <= r.Keys
    decreases |batch|
  {
    if batch == [] then store
    else
      var n := |batch| - 1;
      var s := StoreAll(store, batch[..n], saveOk);
      if saveOk(n) then s[StoreKey(batch[n].0.id) := batch[n].0] else s
  }

  /** Every notification follows the save of the same ticket, and every ack
      follows that ticket's notification. */
  predicate WellOrdered(log: seq<Effect>) {
    forall i :: 0 <= i < |log| ==> OrderedAt(log, i)
  }

  predicate OrderedAt(log: seq<Effect>, i: nat)
    requires i < |log|
  {
    && (log[i].Notified? ==> i >= 1 && log[i - 1] == Saved(log[i].ticketId))
    && (log[i].AckSent? ==> i >= 2 && log[i - 1].Notified? && log[i - 2] == Saved(log[i - 1].ticketId))
  }

  /** `TicketProcessorFunction`: the Redis strings it writes and the effects it has had. */
  class TicketProcessorFunction {
    var store: map<string, Ticket>
    var log: seq<Effect>

    constructor(store: map<string, Ticket>)
      ensures this.store == store && log == []
    {
      this.store := store;
      log := [];
    }

    /** `ProcessTicketAsync` (with `SaveTicketToRedisAsync`). */
    method ProcessTicket(t: Ticket, ackId: string, saveSucceeds: bool, ackSucceeds: bool)
      modifies this
      ensures store == (if saveSucceeds then old(store)[StoreKey(t.id) := t] else old(store))
      ensures log == old(log) + Step(t, ackId, saveSucceeds, ackSucceeds)
    {
      if !saveSucceeds {
        return;
      }
      store := store[StoreKey(t.id) := t];
      log := log + [Saved(t.id)];
      log := log + [Notified(t.id)];
      if ackSucceeds {
        log := log + [AckSent(ackId)];
      }
    }

    /** The `foreach` over a chosen batch. */
    method ProcessBatch(batch: seq<(Ticket, string)>, saveOk: nat -> bool, ackOk: nat -> bool)
      modifies this
      ensures store == StoreAll(old(store), batch, saveOk)
      ensures log == old(log) + Trace(batch, saveOk, ackOk)
    {
      var i := 0;
      while i < |batch|
        invariant 0 <= i <= |batch|
        invariant store == StoreAll(old(store), batch[..i], saveOk)
        invariant log == old(log) + Trace(batch[..i], saveOk, ackOk)
      {
        ProcessTicket(batch[i].0, batch[i].1, saveOk(i), ackOk(i));
        assert batch[..i + 1][..i] == batch[..i];
        i := i + 1;
      }
      assert batch[..i] == batch;
    }

    /** `HandleAsync`: every error is caught inside, so the run always completes. */
    method HandleAsync(pulls: Priority -> Option<seq<ReceivedMessage>>,
                       saveOk: Priority -> nat -> bool, ackOk: Priority -> nat -> bool)
      returns (ghost tried: seq<Priority>)
      requires forall p :: pulls(p).Some? ==> |pulls(p).value| <= PullLimit
      modifies this
      ensures tried == Dispatcher.Cascade(ReportOf(pulls, High), ReportOf(pulls, Medium))
      ensures var p := tried[|tried| - 1];
              var batch := FetchByAttribute(pulls(p), PriorityName(p));
              store == StoreAll(old(store), batch, saveOk(p)) && log == old(log) + Trace(batch, saveOk(p), ackOk(p))
    {
      var high := FetchByAttribute(pulls(High), "high");
      if |high| > 0 {
        tried := [High];
        ProcessBatch(high, saveOk(High), ackOk(High));
      } else {
        var medium := FetchByAttribute(pulls(Medium), "medium");
        if |medium| > 0 {
          tried := [High, Medium];
          ProcessBatch(medium, saveOk(Medium), ackOk(Medium));
        } else {
          var low := FetchByAttribute(pulls(Low), "low");
          tried := [High, Medium, Low];
          ProcessBatch(low, saveOk(Low), ackOk(Low));
        }
      }
    }
  }

  // ---------------------------------------------------------------------
  // Properties

  /** The filter fails exactly when some matching delivery has an undecodable body. */
  lemma {:induction false} FilterThrowsIffMalformed(ms: seq<ReceivedMessage>, tier: string)
    ensures FilterByAttribute(ms, tier).Threw?
        <==> exists i :: 0 <= i < |ms| && TierMatches(ms[i], tier) && ms[i].message.data.Malformed?
    decreases |ms|
  {
    if ms != [] {
      var init := ms[..|ms| - 1];
      FilterThrowsIffMalformed(init, tier);
      if exists i :: 0 <= i < |ms| && TierMatches(ms[i], tier) && ms[i].message.data.Malformed? {
        var i :| 0 <= i < |ms| && TierMatches(ms[i], tier) && ms[i].message.data.Malformed?;
        if i < |init| {
          assert init[i] == ms[i];
        }
      }
      if exists i :: 0 <= i < |init| && TierMatches(init[i], tier) && init[i].message.data.Malformed? {
        var i :| 0 <= i < |init| && TierMatches(init[i], tier) && init[i].message.data.Malformed?;
        assert ms[i] == init[i];
      }
    }
  }

  /** A successful filter keeps exactly the matching deliveries, each with its own ack id. */
  lemma {:induction false} FilterByAttributeMembers(ms: seq<ReceivedMessage>, tier: string, t: Ticket, ackId: string)
    requires FilterByAttribute(ms, tier).Done?
    ensures (t, ackId) in FilterByAttribute(ms, tier).value
        <==> exists i :: 0 <= i < |ms| && TierMatches(ms[i], tier) && ms[i].ackId == ackId && ms[i].message.data == Json(t)
    decreases |ms|
  {
    if ms != [] {
      var init := ms[..|ms| - 1];
      FilterByAttributeMembers(init, tier, t, ackId);
      if exists i :: 0 <= i < |ms| && TierMatches(ms[i], tier) && ms[i].ackId == ackId && ms[i].message.data == Json(t) {
        var i :| 0 <= i < |ms| && TierMatches(ms[i], tier) && ms[i].ackId == ackId && ms[i].message.data == Json(t);
        if i < |init| {
          assert init[i] == ms[i];
        }
      }
      if exists i :: 0 <= i < |init| && TierMatches(init[i], tier) && init[i].ackId == ackId && init[i].message.data == Json(t) {
        var i :| 0 <= i < |init| && TierMatches(init[i], tier) && init[i].ackId == ackId && init[i].message.data == Json(t);
        assert ms[i] == init[i];
      }
    }
  }

  /** Attribute matching ignores letter case: a delivery published with any
      spelling of the tier name lands in that tier. */
  lemma PublishedMessageMatchesItsTier(t: Ticket)
    ensures forall ackId :: TierMatches(ReceivedMessage(ackId, BuildMessage(t)), PriorityTitle(t.priority))
  {
    LowerOfLower(PriorityName(t.priority));
    assert Lower(PriorityTitle(t.priority)) == PriorityName(t.priority);
  }

  lemma WellOrderedConcat(a: seq<Effect>, b: seq<Effect>)
    requires WellOrdered(a) && WellOrdered(b)
    requires b == [] || b[0].Saved?
    ensures WellOrdered(a + b)
  {
    var ab := a + b;
    forall i | 0 <= i < |ab|
      ensures OrderedAt(ab, i)
    {
      if i < |a| {
        assert OrderedAt(a, i);
        assert ab[i] == a[i];
        if i >= 1 {
          assert ab[i - 1] == a[i - 1];
        }
        if i >= 2 {
          assert ab[i - 2] == a[i - 2];
        }
      } else {
        var j := i - |a|;
        assert OrderedAt(b, j);
        assert ab[i] == b[j];
        if j >= 1 {
          assert ab[i - 1] == b[j - 1];
        }
        if j >= 2 {
          assert ab[i - 2] == b[j - 2];
        }
      }
    }
  }

  /** For each ticket the effects come in the order save, notify, ack. */
  lemma {:induction false} TraceWellOrdered(batch: seq<(Ticket, string)>, saveOk: nat -> bool, ackOk: nat -> bool)
    ensures WellOrdered(Trace(batch, saveOk, ackOk))
    decreases |batch|
  {
    if batch != [] {
      var n := |batch| - 1;
      TraceWellOrdered(batch[..n], saveOk, ackOk);
      var step := Step(batch[n].0, batch[n].1, saveOk(n), ackOk(n));
      assert WellOrdered(step);
      WellOrderedConcat(Trace(batch[..n], saveOk, ackOk), step);
    }
  }

  /** The effects of one ticket: its save and notification when the save
      succeeds, and its own ack when the ack succeeds as well. */
  lemma StepMembers(t: Ticket, ackId: string, saveSucceeds: bool, ackSucceeds: bool)
    ensures forall id :: Saved(id) in Step(t, ackId, saveSucceeds, ackSucceeds) <==> saveSucceeds && id == t.id
    ensures forall id :: Notified(id) in Step(t, ackId, saveSucceeds, ackSucceeds) <==> saveSucceeds && id == t.id
    ensures forall a :: AckSent(a) in Step(t, ackId, saveSucceeds, ackSucceeds) <==> saveSucceeds && ackSucceeds && a == ackId
  {
  }

  /** A delivery is acknowledged exactly when its ticket was saved and its own ack call returned:
      a failed save skips the ack, a failed e-mail does not. */
  lemma {:induction false} TraceAcksExactly(batch: seq<(Ticket, string)>, saveOk: nat -> bool, ackOk: nat -> bool, ackId: string)
    ensures AckSent(ackId) in Trace(batch, saveOk, ackOk)
        <==> exists k :: 0 <= k < |batch| && batch[k].1 == ackId && saveOk(k) && ackOk(k)
    decreases |batch|
  {
    if batch != [] {
      var n := |batch| - 1;
      var init := batch[..n];
      TraceAcksExactly(init, saveOk, ackOk, ackId);
      assert Trace(batch, saveOk, ackOk) == Trace(init, saveOk, ackOk) + Step(batch[n].0, batch[n].1, saveOk(n), ackOk(n));
      StepMembers(batch[n].0, batch[n].1, saveOk(n), ackOk(n));
      AckPositionsSplit(batch, saveOk, ackOk, ackId);
    }
  }

  /** A delivery of a non-empty batch is acknowledged either among the earlier
      deliveries or as the last one. */
  lemma AckPositionsSplit(batch: seq<(Ticket, string)>, saveOk: nat -> bool, ackOk: nat -> bool, ackId: string)
    requires batch != []
    ensures var n := |batch| - 1;
            ((exists k :: 0 <= k < |batch| && batch[k].1 == ackId && saveOk(k) && ackOk(k))
             <==> (exists k :: 0 <= k < n && batch[..n][k].1 == ackId && saveOk(k) && ackOk(k))
                  || (batch[n].1 == ackId && saveOk(n) && ackOk(n)))
  {
    var n := |batch| - 1;
    var init := batch[..n];
    if exists k :: 0 <= k < |batch| && batch[k].1 == ackId && saveOk(k) && ackOk(k) {
      var k :| 0 <= k < |batch| && batch[k].1 == ackId && saveOk(k) && ackOk(k);
      if k < n {
        assert init[k] == batch[k];
      }
    }
    if exists k :: 0 <= k < n && init[k].1 == ackId && saveOk(k) && ackOk(k) {
      var k :| 0 <= k < n && init[k].1 == ackId && saveOk(k) && ackOk(k);
      assert batch[k] == init[k];
    }
  }

  /** A ticket is saved and notified exactly when one of its batch entries' saves succeeded:
      one ticket's failure does not stop the others. */
  lemma {:induction false} TraceSavesExactly(batch: seq<(Ticket, string)>, saveOk: nat -> bool, ackOk: nat -> bool, id: string)
    ensures Saved(id) in Trace(batch, saveOk, ackOk)
        <==> exists k :: 0 <= k < |batch| && batch[k].0.id == id && saveOk(k)
    ensures Notified(id) in Trace(batch, saveOk, ackOk) <==> Saved(id) in Trace(batch, saveOk, ackOk)
    decreases |batch|
  {
    if batch != [] {
      var n := |batch| - 1;
      var init := batch[..n];
      TraceSavesExactly(init, saveOk, ackOk, id);
      assert Trace(batch, saveOk, ackOk) == Trace(init, saveOk, ackOk) + Step(batch[n].0, batch[n].1, saveOk(n), ackOk(n));
      StepMembers(batch[n].0, batch[n].1, saveOk(n), ackOk(n));
      SavePositionsSplit(batch, saveOk, id);
    }
  }

  /** A ticket of a non-empty batch is saved either among the earlier entries
      or as the last one. */
  lemma SavePositionsSplit(batch: seq<(Ticket, string)>, saveOk: nat -> bool, id: string)
    requires batch != []
    ensures var n := |batch| - 1;
            ((exists k :: 0 <= k < |batch| && batch[k].0.id == id && saveOk(k))
             <==> (exists k :: 0 <= k < n && batch[..n][k].0.id == id && saveOk(k))
                  || (batch[n].0.id == id && saveOk(n)))
  {
    var n := |batch| - 1;
    var init := batch[..n];
    if exists k :: 0 <= k < |batch| && batch[k].0.id == id && saveOk(k) {
      var k :| 0 <= k < |batch| && batch[k].0.id == id && saveOk(k);
      if k < n {
        assert init[k] == batch[k];
      }
    }
    if exists k :: 0 <= k < n && init[k].0.id == id && saveOk(k) {
      var k :| 0 <= k < n && init[k].0.id == id && saveOk(k);
      assert batch[k] == init[k];
    }
  }

  /** After a batch, a saved ticket that no later saved ticket shares an id
      with is the one stored under its key; keys of unsaved ids are untouched. */
  lemma {:induction false} StoreAllStores(store: map<string, Ticket>, batch: seq<(Ticket, string)>, saveOk: nat -> bool, k: nat)
    requires k < |batch| && saveOk(k)
    requires forall j :: k < j < |batch| && saveOk(j) ==> batch[j].0.id != batch[k].0.id
    ensures var r := StoreAll(store, batch, saveOk);
            StoreKey(batch[k].0.id) in r && r[StoreKey(batch[k].0.id)] == batch[k].0
    decreases |batch|
  {
    var n := |batch| - 1;
    if k < n {
      StoreAllStores(store, batch[..n], saveOk, k);
      if saveOk(n) && StoreKey(batch[n].0.id) == StoreKey(batch[k].0.id) {
        StoreKeyInjective(batch[n].0.id, batch[k].0.id);
      }
    }
  }

  lemma {:induction false} StoreAllFrame(store: map<string, Ticket>, batch: seq<(Ticket, string)>, saveOk: nat -> bool, key: string)
    requires forall k :: 0 <= k < |batch| && saveOk(k) ==> StoreKey(batch[k].0.id) != key
    ensures key in StoreAll(store, batch, saveOk) <==> key in store
    ensures key in store ==> StoreAll(store, batch, saveOk)[key] == store[key]
    decreases |batch|
  {
    if batch != [] {
      StoreAllFrame(store, batch[..|batch| - 1], saveOk, key);
    }
  }
}
