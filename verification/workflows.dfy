/** What the three controllers share: the reduced HTTP outcome, the back-end
    state a request can change (cache, ack table, archive collection), and the
    close workflow — look the ticket up, refuse an unknown id (and, for a
    ticket owner closing, someone else's ticket), close it in the cache,
    archive it only when it is older than the retention period, then
    acknowledge its Pub/Sub message under the ticket's priority. */
module Workflows {
  import opened Tickets
  import opened CacheStore
  import opened AckTracker
  import opened Firestore

  /** An HTTP response reduced to its kind; 500 responses are `ServerError`. */
  datatype Response<+T> = Ok(body: T) | NotFound | Forbid | BadRequest | ServerError

  /** The back-end state requests act on. */
  datatype Backends = Backends(cache: CacheState, acks: AckTable, archives: map<string, ArchiveRecord>)

  /** Who closes: a technician (any ticket) or a ticket owner (their own only);
      `caller` is the owner's e-mail claim, absent when the claim is missing. */
  datatype Closer = AnyTicket(technician: string) | OwnTicket(caller: Option<string>)

  /** The close endpoints (`TechniciansController.CloseTicket`,
      `UsersController.CloseTicket`, `TicketsController.CloseTicket`).
      Faults and ack inputs as in `CacheStore` and `AckTracker`. */
  function CloseTicket(w: Backends, prefix: string, id: string, closer: Closer, now: int,
                       getFault: Fault, closeFault: Fault, ackSucceeds: bool,
                       pull: Option<seq<ReceivedMessage>>): (r: (Response<()>, Backends))
    requires HasTierSets(w.cache.memory)
    // an unknown id or a foreign ticket: no effect beyond the read's failover
    ensures r.0.NotFound? <==> Get(w.cache, prefix, id, getFault).value.None?
    ensures r.0.Forbid? <==> && Get(w.cache, prefix, id, getFault).value.Some?
                             && closer.OwnTicket?
                             && closer.caller != Some(Get(w.cache, prefix, id, getFault).value.value.userEmail)
    ensures r.0.NotFound? || r.0.Forbid? ==> r.1 == w.(cache := Get(w.cache, prefix, id, getFault).state)
    ensures !r.0.BadRequest?
    // otherwise the ticket is archived only when older than the retention period
    ensures r.1.archives != w.archives ==>
              Get(w.cache, prefix, id, getFault).value.Some? && OlderThanRetention(Get(w.cache, prefix, id, getFault).value.value, now)
    ensures r.0.ServerError? ==> !ackSucceeds || pull.None?
  {
    var g := Get(w.cache, prefix, id, getFault);
    match g.value
    case None => (NotFound, w.(cache := g.state))
    case Some(t) =>
      if closer.OwnTicket? && closer.caller != Some(t.userEmail) then (Forbid, w.(cache := g.state))
      else
        var closedBy := if closer.AnyTicket? then closer.technician else t.userEmail;
        var cache := Close(g.state, prefix, id, closeFault);
        var archives := if OlderThanRetention(t, now) then w.archives[t.id := ArchiveOf(t, closedBy, now)] else w.archives;
        var (ack, acks) := Acknowledge(w.acks, id, t.priority, ackSucceeds, pull);
        (if ack.AckThrew? then ServerError else Ok(()), Backends(cache, acks, archives))
  }

  /** A close that gets past the checks closes the ticket in the cache, archives
      it (status Closed, closed by the caller) exactly when it is older than the
      retention period, and acknowledges it under the ticket's own priority. */
  lemma CloseKnownTicket(w: Backends, prefix: string, id: string, closer: Closer, now: int,
                         getFault: Fault, closeFault: Fault, ackSucceeds: bool,
                         pull: Option<seq<ReceivedMessage>>, t: Ticket)
    requires Consistent(w.cache, prefix)
    requires Get(w.cache, prefix, id, getFault).value == Some(t)
    requires closer.OwnTicket? ==> closer.caller == Some(t.userEmail)
    ensures var (resp, after) := CloseTicket(w, prefix, id, closer, now, getFault, closeFault, ackSucceeds, pull);
            var closedBy' := if closer.AnyTicket? then closer.technician else t.userEmail;
            && t.id == id
            && after.cache == Close(Get(w.cache, prefix, id, getFault).state, prefix, id, closeFault)
            && (OlderThanRetention(t, now) ==> && id in after.archives
                                               && after.archives[id].status == Closed
                                               && after.archives[id].closedBy == closedBy'
                                               && after.archives == w.archives[id := after.archives[id]])
            && (!OlderThanRetention(t, now) ==> after.archives == w.archives)
            && (resp, after.acks) == (match Acknowledge(w.acks, id, t.priority, ackSucceeds, pull).0
                                      case AckThrew => ServerError
                                      case _ => Ok(()),
                                      Acknowledge(w.acks, id, t.priority, ackSucceeds, pull).1)
  {
    var g := Get(w.cache, prefix, id, getFault);
    if g.state.useRedis {
      assert TicketKey(prefix, id) == TicketKey(prefix, w.cache.primary.strings[TicketKey(prefix, id)].id);
    } else {
      assert TicketKey(prefix, id) == TicketKey(prefix, w.cache.memory.cache[TicketKey(prefix, id)].id);
    }
    TicketKeyInjective(prefix, id, t.id);
  }

  /** Closing a found ticket whose handle is stored, with the ack call
      returning, succeeds and forgets exactly that handle. */
  lemma CloseWithStoredHandle(w: Backends, prefix: string, id: string, closer: Closer, now: int,
                              getFault: Fault, closeFault: Fault, pull: Option<seq<ReceivedMessage>>,
                              t: Ticket, h: string)
    requires Consistent(w.cache, prefix)
    requires Get(w.cache, prefix, id, getFault).value == Some(t)
    requires closer.OwnTicket? ==> closer.caller == Some(t.userEmail)
    requires Handle(w.acks, PriorityName(t.priority), id) == Some(h)
    ensures var (resp, after) := CloseTicket(w, prefix, id, closer, now, getFault, closeFault, true, pull);
            && resp == Ok(())
            && after.acks == Forget(w.acks, PriorityName(t.priority), id)
  {
    CloseKnownTicket(w, prefix, id, closer, now, getFault, closeFault, true, pull, t);
  }
}
