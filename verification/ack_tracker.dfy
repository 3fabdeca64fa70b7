/** The Pub/Sub side of the ticket lifecycle (`PubSubService`): the message a
    ticket is published as, the per-tier table of ack handles, and the two
    acknowledgement paths — by stored handle, or by a bounded search of a freshly
    pulled batch. The Pub/Sub service itself is an input: what a publish or pull
    returns and whether an acknowledge call succeeds. */
module AckTracker {
  import opened Tickets

  const PriorityAttribute: string := "priority"
  const TicketIdAttribute: string := "ticketId"

  /** `MaxMessages` of the recovery pull. */
  const SearchBatchSize: nat := 100

  /** A message body: the JSON of a ticket, or bytes that do not decode to one. */
  datatype Payload = Json(ticket: Ticket) | Malformed

  datatype PubsubMessage = PubsubMessage(data: Payload, attributes: map<string, string>)

  datatype ReceivedMessage = ReceivedMessage(ackId: string, message: PubsubMessage)

  /** The decoded ticket id of a body, if it decodes. */
  function DecodedId(m: PubsubMessage): Option<string> {
    if m.data.Json? then Some(m.data.ticket.id) else None
  }

  /** The message `PublishTicketAsync` sends for a ticket. */
  function BuildMessage(t: Ticket): (m: PubsubMessage)
    ensures PriorityAttribute in m.attributes && TicketIdAttribute in m.attributes
    ensures ParsePriority(m.attributes[PriorityAttribute]) == Some(t.priority)
    ensures m.attributes[TicketIdAttribute] == t.id
    ensures DecodedId(m) == Some(t.id) && m.data.ticket == t
  {
    ParsePriorityRoundTrip(t.priority);
    PubsubMessage(Json(t), map[PriorityAttribute := PriorityName(t.priority), TicketIdAttribute := t.id])
  }

  /** The recovery search's test: the `ticketId` attribute names the ticket, or
      else the body decodes to a ticket with that id. A body that does not
      decode is skipped, whatever its attributes. */
  predicate MatchesTicket(m: PubsubMessage, id: string) {
    (TicketIdAttribute in m.attributes && m.attributes[TicketIdAttribute] == id)
    || DecodedId(m) == Some(id)
  }

  /** Index of the first message that matches `id`; `|ms|` when none does. */
  function FirstMatch(ms: seq<ReceivedMessage>, id: string): (i: nat)
    ensures i <= |ms|
    ensures forall j :: 0 <= j < i ==> !MatchesTicket(ms[j].message, id)
    ensures i < |ms| ==> MatchesTicket(ms[i].message, id)
    decreases |ms|
  {
    if ms == [] then 0
    else if MatchesTicket(ms[0].message, id) then 0
    else 1 + FirstMatch(ms[1..], id)
  }

  /** The ack id the recovery search picks in a pulled batch. */
  function FindAckId(ms: seq<ReceivedMessage>, id: string): (r: Option<string>)
    ensures r.None? <==> forall j :: 0 <= j < |ms| ==> !MatchesTicket(ms[j].message, id)
    ensures r.Some? ==> r.value == ms[FirstMatch(ms, id)].ackId
  {
    var i := FirstMatch(ms, id);
    if i < |ms| then Some(ms[i].ackId) else None
  }

  /** `tier -> (ticketId -> handle)`. */
  type AckTable = map<string, map<string, string>>

  function InitialTable(): (table: AckTable)
    ensures table.Keys == {"high", "medium", "low"}
    ensures forall tier :: tier in table ==> table[tier] == map[]
  {
    map["high" := map[], "medium" := map[], "low" := map[]]
  }

  /** The handle stored for a ticket in a tier, if any. */
  function Handle(table: AckTable, tier: string, id: string): Option<string> {
    if tier in table && id in table[tier] then Some(table[tier][id]) else None
  }

  /** Store `handle` under (tier, id) when the tier exists; otherwise nothing. */
  function Record(table: AckTable, tier: string, id: string, handle: string): (r: AckTable)
    ensures r.Keys == table.Keys
    ensures tier in table ==> Handle(r, tier, id) == Some(handle)
    ensures tier !in table ==> r == table
    ensures forall t, i :: (t, i) != (tier, id) ==> Handle(r, t, i) == Handle(table, t, i)
  {
    if tier in table then table[tier := table[tier][id := handle]] else table
  }

  /** Drop the entry (tier, id). */
  function Forget(table: AckTable, tier: string, id: string): (r: AckTable)
    requires tier in table
    ensures r.Keys == table.Keys
    ensures Handle(r, tier, id) == None
    ensures forall t, i :: (t, i) != (tier, id) ==> Handle(r, t, i) == Handle(table, t, i)
  {
    table[tier := table[tier] - {id}]
  }

  /** What an acknowledgement did: acked one handle, found nothing to ack, or threw. */
  datatype AckResult = Acked(handle: string) | NothingToAck | AckThrew

  /** `AcknowledgeTicketAsync`. With a stored handle: ack it, then forget it; a
      failing ack throws and keeps the entry. Without one: pull at most
      `SearchBatchSize` messages from the tier's subscription (`pull`, or `None`
      if the pull throws) and ack the first match, if any; the table is left as
      it was. `ackSucceeds` says whether the acknowledge call returns. */
  function Acknowledge(table: AckTable, id: string, p: Priority, ackSucceeds: bool,
                       pull: Option<seq<ReceivedMessage>>): (r: (AckResult, AckTable))
    ensures r.0.Acked? ==> ackSucceeds
    ensures r.1 == table || Handle(table, PriorityName(p), id).Some?
  {
    var tier := PriorityName(p);
    match Handle(table, tier, id)
    case Some(h) =>
      if ackSucceeds then (Acked(h), Forget(table, tier, id)) else (AckThrew, table)
    case None =>
      match pull
      case None => (AckThrew, table)
      case Some(ms) =>
        match FindAckId(ms, id)
        case None => (NothingToAck, table)
        case Some(h) => if ackSucceeds then (Acked(h), table) else (AckThrew, table)
  }

  /** `PubSubService`'s ack table; the publisher and subscriber are inputs. */
  class PubSubService {
    var messageAckIds: AckTable

    constructor()
      ensures messageAckIds == InitialTable()
    {
      messageAckIds := map["high" := map[], "medium" := map[], "low" := map[]];
    }

    /** `PublishTicketAsync`: `published` is the message id the publisher returns
        for `BuildMessage(t)`, or `None` if publishing throws. */
    method PublishTicket(t: Ticket, published: Option<string>) returns (r: Outcome<string>)
      modifies this
      ensures r == if published.Some? then Done(published.value) else Threw
      ensures messageAckIds == if published.Some? then Record(old(messageAckIds), PriorityName(t.priority), t.id, published.value)
                               else old(messageAckIds)
    {
      if published.None? {
        return Threw;
      }
      var messageId := published.value;
      var tier := PriorityName(t.priority);
      if tier in messageAckIds {
        messageAckIds := messageAckIds[tier := messageAckIds[tier][t.id := messageId]];
      }
      return Done(messageId);
    }

    method RegisterMessageId(ticketId: string, p: Priority, messageId: string, ackId: string)
      modifies this
      ensures messageAckIds == Record(old(messageAckIds), PriorityName(p), ticketId, ackId)
    {
      var tier := PriorityName(p);
      if tier in messageAckIds {
        messageAckIds := messageAckIds[tier := messageAckIds[tier][ticketId := ackId]];
      }
    }

    method AcknowledgeTicket(id: string, p: Priority, ackSucceeds: bool, pull: Option<seq<ReceivedMessage>>)
      returns (r: AckResult)
      requires pull.Some? ==> |pull.value| <= SearchBatchSize
      modifies this
      ensures (r, messageAckIds) == Acknowledge(old(messageAckIds), id, p, ackSucceeds, pull)
    {
      var tier := PriorityName(p);
      if tier in messageAckIds && id in messageAckIds[tier] {
        var ackId := messageAckIds[tier][id];
        if !ackSucceeds {
          return AckThrew;
        }
        messageAckIds := messageAckIds[tier := messageAckIds[tier] - {id}];
        return Acked(ackId);
      }
      r := FindAndAcknowledge(id, ackSucceeds, pull);
    }

    /** `FindAndAcknowledgeTicketMessageAsync`: the search loop breaks at the
        first matching delivery. */
    method FindAndAcknowledge(id: string, ackSucceeds: bool, pull: Option<seq<ReceivedMessage>>)
      returns (r: AckResult)
      ensures r == match pull
                   case None => AckThrew
                   case Some(ms) =>
                     match FindAckId(ms, id)
                     case None => NothingToAck
                     case Some(h) => if ackSucceeds then Acked(h) else AckThrew
    {
      if pull.None? {
        return AckThrew;
      }
      var ms := pull.value;
      var ackIdToUse: Option<string> := None;
      var i := 0;
      while i < |ms|
        invariant 0 <= i <= |ms|
        invariant forall j :: 0 <= j < i ==> !MatchesTicket(ms[j].message, id)
      {
        var m := ms[i].message;
        if TicketIdAttribute in m.attributes && m.attributes[TicketIdAttribute] == id {
          ackIdToUse := Some(ms[i].ackId);
          break;
        }
        if m.data.Json? && m.data.ticket.id == id {
          ackIdToUse := Some(ms[i].ackId);
          break;
        }
        i := i + 1;
      }
      assert ackIdToUse.Some? ==> i < |ms| && MatchesTicket(ms[i].message, id) && i == FirstMatch(ms, id);
      if ackIdToUse.None? {
        return NothingToAck;
      }
      if !ackSucceeds {
        return AckThrew;
      }
      return Acked(ackIdToUse.value);
    }
  }

  // ---------------------------------------------------------------------
  // Properties

  /** A pulled batch holding a delivery of a ticket's own published message is
      always resolved by the recovery search, at that delivery or an earlier match. */
  lemma SearchFindsPublishedMessage(ms: seq<ReceivedMessage>, t: Ticket, i: nat)
    requires i < |ms| && ms[i].message == BuildMessage(t)
    ensures FindAckId(ms, t.id).Some?
    ensures FirstMatch(ms, t.id) <= i
  {
  }

  /** Acknowledging through a stored handle acks exactly that handle and then
      forgets only that entry; a failing ack keeps it. */
  lemma AcknowledgeStoredHandle(table: AckTable, id: string, p: Priority, h: string, ok: bool,
                                pull: Option<seq<ReceivedMessage>>)
    requires Handle(table, PriorityName(p), id) == Some(h)
    ensures var (r, after) := Acknowledge(table, id, p, ok, pull);
            && (ok ==> r == Acked(h) && Handle(after, PriorityName(p), id) == None)
            && (!ok ==> r == AckThrew && after == table)
            && (forall tier, i :: (tier, i) != (PriorityName(p), id) ==> Handle(after, tier, i) == Handle(table, tier, i))
  {
  }

  /** Without a stored handle the table is never changed, and a search that
      finds nothing acknowledges nothing and does not throw. */
  lemma AcknowledgeWithoutHandle(table: AckTable, id: string, p: Priority, ok: bool, ms: seq<ReceivedMessage>)
    requires Handle(table, PriorityName(p), id).None?
    ensures Acknowledge(table, id, p, ok, Some(ms)).1 == table
    ensures (forall j :: 0 <= j < |ms| ==> !MatchesTicket(ms[j].message, id))
            ==> Acknowledge(table, id, p, ok, Some(ms)).0 == NothingToAck
  {
  }

  /** A registered ack id is what the next acknowledgement of that ticket acks. */
  lemma RegisterThenAcknowledge(table: AckTable, id: string, p: Priority, ackId: string,
                                pull: Option<seq<ReceivedMessage>>)
    requires PriorityName(p) in table
    ensures Acknowledge(Record(table, PriorityName(p), id, ackId), id, p, true, pull).0 == Acked(ackId)
  {
  }

  /** As written, publishing records the publisher's message id in the same table,
      so acknowledging a just-published ticket sends that message id as its ack
      handle. */
  lemma PublishThenAcknowledge(table: AckTable, t: Ticket, messageId: string, pull: Option<seq<ReceivedMessage>>)
    requires PriorityName(t.priority) in table
    ensures Acknowledge(Record(table, PriorityName(t.priority), t.id, messageId), t.id, t.priority, true, pull).0
         == Acked(messageId)
  {
  }
}
