/** The ticket endpoints (`TicketsController`): creating a ticket (register the
    user, publish, then cache), viewing one ticket, and closing one. */
module TicketsApi {
  import opened Tickets
  import opened CacheStore
  import opened AckTracker
  import opened Firestore
  import opened Workflows

  /** The e-mail used when the caller has no e-mail claim. */
  const AnonymousEmail := "anonymous@example.com"

  /** The ticket `CreateTicket` builds: open, owned by the caller, uploaded now. */
  function NewTicket(id: string, title: string, description: string, owner: string, priority: Priority,
                     imageUrls: seq<string>, now: int): (t: Ticket)
    ensures t.status == Open && t.userEmail == owner && t.priority == priority
    ensures t.imageUrls == imageUrls && t.dateUploaded == now && t.id == id
    ensures t.title == title && t.description == description
  {
    Ticket(id, title, description, owner, priority, Open, imageUrls, now)
  }

  /** Technicians may view any ticket, everyone else only their own. */
  predicate CanView(isTechnician: bool, caller: Option<string>, t: Ticket) {
    isTechnician || caller == Some(t.userEmail)
  }

  class TicketsController {
    const cache: RedisService
    const pubsub: PubSubService
    const firestore: FirestoreService

    constructor(cache: RedisService, pubsub: PubSubService, firestore: FirestoreService)
      ensures this.cache == cache && this.pubsub == pubsub && this.firestore == firestore
    {
      this.cache := cache;
      this.pubsub := pubsub;
      this.firestore := firestore;
    }

    function Snapshot(): Backends
      reads cache, pubsub, firestore
    {
      Backends(cache.State(), pubsub.messageAckIds, firestore.archives)
    }

    /** `CreateTicket`. `newId` is the ticket's generated id, `imageUrls` the
        uploaded screenshots' urls, `published` the message id the publisher
        returns (`None` if publishing throws). The user is saved with their
        current role, the ticket published, and only then cached; the result
        is the ticket id and message id. */
    method CreateTicket(emailClaim: Option<string>, title: string, description: string, priority: Priority,
                        imageUrls: seq<string>, newId: string, now: int, published: Option<string>, saveFault: Fault)
      returns (r: Response<(string, string)>)
      requires cache.Valid() && firestore.Valid()
      modifies cache, pubsub, firestore`users
      ensures cache.Valid() && firestore.Valid()
      ensures var email := emailClaim.GetOr(AnonymousEmail);
              var t := NewTicket(newId, title, description, email, priority, imageUrls, now);
              && firestore.users == SaveUser(old(firestore.users), email,
                                             if email in old(firestore.users) then Some(old(firestore.users)[email].role.GetOr(User)) else None,
                                             now).0
              && (email in old(firestore.users) ==> firestore.users == old(firestore.users))
              && (published.None? ==> && r == ServerError
                                      && cache.State() == old(cache.State())
                                      && pubsub.messageAckIds == old(pubsub.messageAckIds))
              && (published.Some? ==> && r == Ok((newId, published.value))
                                      && pubsub.messageAckIds == Record(old(pubsub.messageAckIds), PriorityName(priority), newId, published.value)
                                      && cache.State() == Save(old(cache.State()), cache.instanceName, t, saveFault))
    {
      var email := emailClaim.GetOr(AnonymousEmail);
      var existing := firestore.GetUserByEmail(email, now);
      var _ := firestore.SaveUserAsync(email, if existing.Some? then Some(existing.value.role) else None, now);
      var t := NewTicket(newId, title, description, email, priority, imageUrls, now);
      var messageId := pubsub.PublishTicket(t, published);
      if messageId.Threw? {
        return ServerError;
      }
      cache.SaveTicket(t, saveFault);
      r := Ok((t.id, messageId.value));
    }

    /** `GetTicket`. */
    method GetTicket(id: string, isTechnician: bool, caller: Option<string>, f: Fault) returns (r: Response<Ticket>)
      modifies cache`useRedis
      ensures var g := Get(old(cache.State()), cache.instanceName, id, f);
              && cache.State() == g.state
              && (g.value.None? ==> r == NotFound)
              && (g.value.Some? && !CanView(isTechnician, caller, g.value.value) ==> r == Forbid)
              && (g.value.Some? && CanView(isTechnician, caller, g.value.value) ==> r == Ok(g.value.value))
    {
      var found := cache.GetTicket(id, f);
      if found.None? {
        return NotFound;
      }
      if !CanView(isTechnician, caller, found.value) {
        return Forbid;
      }
      r := Ok(found.value);
    }

    /** `CloseTicket` (technicians only): the ticket is marked Closed before it is archived. */
    method CloseTicket(id: string, technician: string, now: int, getFault: Fault, closeFault: Fault,
                       ackSucceeds: bool, pull: Option<seq<ReceivedMessage>>) returns (r: Response<()>)
      requires cache.Valid()
      requires pull.Some? ==> |pull.value| <= SearchBatchSize
      modifies cache, pubsub, firestore
      ensures cache.Valid()
      ensures (r, Snapshot()) == Workflows.CloseTicket(old(Snapshot()), cache.instanceName, id, AnyTicket(technician), now,
                                                       getFault, closeFault, ackSucceeds, pull)
    {
      var found := cache.GetTicket(id, getFault);
      if found.None? {
        return NotFound;
      }
      var t := found.value.(status := Closed);
      cache.CloseTicket(id, closeFault);
      if OlderThanRetention(t, now) {
        firestore.ArchiveTicketAsync(t, technician, now);
      }
      var ack := pubsub.AcknowledgeTicket(id, t.priority, ackSucceeds, pull);
      r := if ack.AckThrew? then ServerError else Ok(());
    }
  }
}
