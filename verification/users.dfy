/** The ticket-owner endpoints (`UsersController`): the caller's open tickets,
    the caller's profile, and closing one of the caller's own tickets. */
module Users {
  import opened Tickets
  import opened CacheStore
  import opened AckTracker
  import opened Firestore
  import opened Workflows

  /** `Where(t => t.UserEmail == userEmail)`; a missing e-mail claim matches nothing. */
  function OwnedBy(ts: seq<Ticket>, caller: Option<string>): (r: seq<Ticket>)
    ensures |r| <= |ts|
    ensures forall t :: t in r ==> caller == Some(t.userEmail)
    decreases |ts|
  {
    if ts == [] then []
    else
      var t := ts[|ts| - 1];
      OwnedBy(ts[..|ts| - 1], caller) + (if caller == Some(t.userEmail) then [t] else [])
  }

  /** The filter keeps exactly the caller's tickets ... */
  lemma {:induction false} OwnedByMembers(ts: seq<Ticket>, caller: Option<string>, t: Ticket)
    ensures t in OwnedBy(ts, caller) <==> t in ts && caller == Some(t.userEmail)
    decreases |ts|
  {
    if ts != [] {
      OwnedByMembers(ts[..|ts| - 1], caller, t);
      assert ts == ts[..|ts| - 1] + [ts[|ts| - 1]];
    }
  }

  /** ... in their original order: it is the list itself when every ticket is the caller's. */
  lemma {:induction false} OwnedByKeepsOwnList(ts: seq<Ticket>, email: string)
    requires forall i :: 0 <= i < |ts| ==> ts[i].userEmail == email
    ensures OwnedBy(ts, Some(email)) == ts
    decreases |ts|
  {
    if ts != [] {
      OwnedByKeepsOwnList(ts[..|ts| - 1], email);
      assert ts == ts[..|ts| - 1] + [ts[|ts| - 1]];
    }
  }

  /** Filtering distributes over concatenation, so relative order is kept. */
  lemma {:induction false} OwnedByConcat(a: seq<Ticket>, b: seq<Ticket>, caller: Option<string>)
    ensures OwnedBy(a + b, caller) == OwnedBy(a, caller) + OwnedBy(b, caller)
    decreases |b|
  {
    if b != [] {
      var b' := b[..|b| - 1];
      assert (a + b)[..|a + b| - 1] == a + b';
      OwnedByConcat(a, b', caller);
    } else {
      assert a + b == a;
    }
  }

  class UsersController {
    const cache: RedisService
    const pubsub: PubSubService
    const firestore: FirestoreService

    constructor(cache: RedisService, pubsub: PubSubService, firestore: FirestoreService)
      ensures this.cache == cache && this.pubsub == pubsub && this.firestore == firestore
    {
      this.cache := cache;
      this.pubsub := pubsub;
      this.firestore := firestore;
    }

    function Snapshot(): Backends
      reads cache, pubsub, firestore
    {
      Backends(cache.State(), pubsub.messageAckIds, firestore.archives)
    }

    /** `GetMyTickets`. */
    method GetMyTickets(caller: Option<string>, f: Fault) returns (r: Response<seq<Ticket>>, ghost order: seq<string>)
      modifies cache`useRedis
      ensures Enumerates(order, ListedIds(old(cache.State()), f, OpenSetKey(cache.instanceName), old(cache.openTickets)))
      ensures var l := ListOpen(old(cache.State()), cache.instanceName, f, order);
              r == Ok(OwnedBy(l.value, caller)) && cache.State() == l.state
    {
      var open;
      open, order := cache.GetOpenTickets(f);
      r := Ok(OwnedBy(open, caller));
    }

    /** `GetProfile`: no document for the caller is NotFound; a missing e-mail
        claim makes the lookup itself fail. */
    method GetProfile(caller: Option<string>, now: int) returns (r: Response<AppUser>)
      ensures caller.None? ==> r == ServerError
      ensures caller.Some? && caller.value !in firestore.users ==> r == NotFound
      ensures caller.Some? && caller.value in firestore.users ==>
                r == Ok(ToUser(caller.value, firestore.users[caller.value], now))
    {
      if caller.None? {
        return ServerError;
      }
      var user := firestore.GetUserByEmail(caller.value, now);
      if user.None? {
        return NotFound;
      }
      r := Ok(user.value);
    }

    /** `CloseTicket`: only the ticket's owner may close it. */
    method CloseTicket(id: string, caller: Option<string>, now: int, getFault: Fault, closeFault: Fault,
                       ackSucceeds: bool, pull: Option<seq<ReceivedMessage>>) returns (r: Response<()>)
      requires cache.Valid()
      requires pull.Some? ==> |pull.value| <= SearchBatchSize
      modifies cache, pubsub, firestore
      ensures cache.Valid()
      ensures (r, Snapshot()) == Workflows.CloseTicket(old(Snapshot()), cache.instanceName, id, OwnTicket(caller), now,
                                                       getFault, closeFault, ackSucceeds, pull)
    {
      var found := cache.GetTicket(id, getFault);
      if found.None? {
        return NotFound;
      }
      var t := found.value;
      if caller != Some(t.userEmail) {
        return Forbid;
      }
      cache.CloseTicket(id, closeFault);
      if OlderThanRetention(t, now) {
        firestore.ArchiveTicketAsync(t, caller.value, now);
      }
      var ack := pubsub.AcknowledgeTicket(id, t.priority, ackSucceeds, pull);
      r := if ack.AckThrew? then ServerError else Ok(());
    }
  }
}
