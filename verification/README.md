# Ticket system core, modelled in Dafny

This project models the core of a helpdesk ticket system. Users create tickets with a priority (High, Medium or Low).

- Each ticket is published to a Pub/Sub topic and cached.
- Dispatchers drain the topic tier by tier: High first, then Medium, then Low.
- Technicians and owners close tickets. A ticket older than seven days is archived when it is closed.
- A sweep removes closed tickets past that retention period.

The model covers these sequential pieces:

- **Cache store with sticky failover** (`cache_store.dfy`, `cache_properties.dfy`).
  - The primary store is a value `Keyspace` of string keys and set keys. The in-memory fallback tier is concrete: the payload map, the open and closed id sets, and three priority id sets.
  - `RedisService` keeps these as fields. Its methods are proved equal to specification functions over a `CacheState`.
  - Primary failures come from a fault oracle: `FaultAt(k)` makes the k-th primary call of one operation throw.
  - The `useRedis` flag starts true and only ever goes false.
- **Ack-handle tracker** (`ack_tracker.dfy`).
  - A per-tier table maps ticket ids to ack handles.
  - Publish and register write entries into it.
  - Acknowledge either uses the stored handle or runs a find-first search over a pulled batch.
- **Priority-cascade dispatchers.**
  - `dispatcher.dfy` models the controller variant: it filters on the decoded priority and acks on fetch.
  - `cloud_processor.dfy` models the cloud-function variant: it filters on the priority attribute, then saves, notifies and acks each ticket.
- **HTTP workflows.**
  - `workflows.dfy` holds the close workflow shared by the three controllers.
  - `technicians.dfy`, `users.dfy` and `tickets_api.dfy` model the controllers. Each HTTP result is reduced to a `Response` value.
- **User store and archive** (`firestore.dfy`): the role upsert rule, the fallback conversion, the technician filter and the archive record.
- **Stub processor** (`processor_service.dfy`): the tier-name mapping and the unconditional three-tier pass.

The modelling conventions:

- Time is an integer count of seconds, passed in as `now`.
- A message payload is either the ticket itself or `Malformed`.
- Pub/Sub pulls, publish results, ack outcomes and notification outcomes are parameters.

## Model

| member | source | states |
|---|---|---|
| Tickets.ParsePriority | Controllers/TechnicianController.cs:71-77 | A priority parses exactly when the lower-cased text is one of the three tier names, and then its tier name is that text |
| Tickets.ParsePriorityRoundTrip | Services/PubSubService.cs:53-57 | Both the lower-case tier name written as the `priority` attribute and the enum member name parse back to the same priority |
| Tickets.ParsePriorityExact | Controllers/TechnicianController.cs:71-77 | Parsing gives `p` if and only if the lower-cased input is `p`'s tier name |
| Tickets.PriorityNameInjective | Services/RedisService.cs:38-40 | The three tier names are distinct, so a tier set identifies its priority |
| CacheStore.FormatKey | Services/RedisService.cs:97-100 | A key is the instance prefix followed by the key, with both parts recoverable |
| CacheStore.TicketKeyInjective | Services/RedisService.cs:97-100 | Two ids with the same formatted ticket key are the same id |
| CacheStore.TicketKeyIsNotASetKey | Services/RedisService.cs:113-135 | A ticket payload key never coincides with a status or priority set key |
| CacheStore.MemorySave | Services/RedisService.cs:148-162 | A fallback save upserts the payload, adds the id to the set for its status and to its priority set, and changes nothing else; the other status set keeps the id |
| CacheStore.MemoryMarkClosed | Services/RedisService.cs:396-397 | A fallback close removes the id from the open set and adds it to the closed set, leaving the payloads and priority sets alone |
| CacheStore.RemoveTicket | Services/RedisService.cs:480-490 | Removing an expired ticket from the fallback drops its payload and its priority-set entry only |
| CacheStore.Save | Services/RedisService.cs:103-171 | A save writes the payload, the status set and the priority set on the primary. It falls back to memory exactly when a primary call fails, and clears the flag. After failover the primary is untouched |
| CacheStore.Get | Services/RedisService.cs:174-223 | A read returns the primary payload while the primary is healthy. Otherwise, or when its primary call fails, it returns the fallback payload, and `None` for an id never stored. Only the flag may change |
| CacheStore.MoveToClosed | Services/RedisService.cs:371-397 | Close moves the id from the open to the closed set on the primary. If either set call fails, it clears the flag and does the same in memory |
| CacheStore.Close | Services/RedisService.cs:351-406 | Closing keeps the cache consistent and never sets the flag back to true |
| CacheStore.PrimarySweepConsistent | Services/RedisService.cs:428-452 | Whatever fails, the primary pass keeps payload keys matching their tickets' ids in both tiers |
| CacheStore.PrimarySweepStopsWhenThrown | Services/RedisService.cs:415-463 | Once a primary sweep call has thrown, the rest of the primary pass does nothing |
| CacheStore.RedisService.SaveTicket | Services/RedisService.cs:103-171 | The new cache state is `Save` of the old one |
| CacheStore.RedisService.GetTicket | Services/RedisService.cs:174-223 | The result and the new flag are those of `Get` |
| CacheStore.RedisService.ReadEach | Services/RedisService.cs:266-273 | Reading each id of a set, in some enumeration of it, gives `ReadAll` |
| CacheStore.RedisService.GetOpenTickets | Services/RedisService.cs:226-283 | The result is the open listing over an enumeration of the open set that was read |
| CacheStore.RedisService.GetTicketsByPriority | Services/RedisService.cs:286-348 | The result is the priority listing over an enumeration of that priority's set |
| CacheStore.RedisService.CloseTicket | Services/RedisService.cs:351-406 | The new cache state is `Close` of the old one |
| CacheStore.RedisService.MoveToClosedSet | Services/RedisService.cs:371-397 | The new cache state is `MoveToClosed` of the old one |
| CacheStore.RedisService.RemoveOldClosedTickets | Services/RedisService.cs:409-508 | The result and new state are `Sweep` over enumerations of the primary and fallback closed sets |
| CacheStore.RedisService.SweepPrimary | Services/RedisService.cs:415-463 | The primary pass visits every closed id exactly once and computes `PrimaryPassOf`. It keeps the cache valid, and its frame leaves the fallback tier alone |
| CacheStore.RedisService.SweepFallback | Services/RedisService.cs:465-498 | The fallback pass, with its deferred closed-set removal, computes `FallbackSweep` |
| CacheStore.RedisService.TestConnection | Services/RedisService.cs:511-543 | The probe succeeds exactly when the flag was set and neither the test write nor its read-back fails; the flag is left equal to the result |
| CacheProperties.PresentMembers | Services/RedisService.cs:266-273 | A ticket is in the listing of a sequence of ids exactly when its id is in the sequence and its payload is stored; missing payloads are skipped |
| CacheProperties.ReadAllClosedForm | Services/RedisService.cs:250-273 | Reading a set returns the primary payloads of the ids before the first failing read and the fallback payloads of the rest |
| CacheProperties.ListWithoutFault | Services/RedisService.cs:232-258 | With a healthy primary, list-open and list-by-priority return exactly the stored tickets whose ids are in the primary set, and change nothing |
| CacheProperties.ListAfterFailover | Services/RedisService.cs:266-273 | After failover a listing returns exactly the stored fallback tickets whose ids are in the fallback set, and changes nothing |
| CacheProperties.ListSound | Services/RedisService.cs:226-348 | Whatever fails, each listed ticket was stored in one tier under an id the listing enumerated |
| CacheProperties.SaveThenGet | Services/RedisService.cs:149 | A saved ticket reads back, unless the read's own primary call fails while the save went to the primary |
| CacheProperties.FailoverHidesPrimaryWrites | Services/RedisService.cs:201-209 | That exception occurs: a primary-only write is invisible to a read that fails over |
| CacheProperties.SaveIdempotent | Services/RedisService.cs:154-162 | Saving the same ticket twice without failure equals saving it once, so no set grows |
| CacheProperties.CloseEffect | Services/RedisService.cs:358-397 | Closing a present ticket leaves it stored as Closed. On the primary it sits in the closed set and not the open set; after failover the same holds for the fallback sets |
| CacheProperties.CloseAbsent | Services/RedisService.cs:358-363 | Closing an absent id changes no store and no set |
| CacheProperties.CloseFailoverSplitsTiers | Services/RedisService.cs:388-397 | A failure between the status write and the set move leaves the Closed payload on the primary and the id in the fallback closed set without a payload |
| CacheProperties.FailoverIsPermanent | Services/RedisService.cs:29 | Once the flag is clear, save, get, close and sweep never set it again and never touch the primary |
| CacheProperties.MemorySweepCache | Services/RedisService.cs:466-498 | The fallback sweep deletes exactly the expired payloads of closed ids and keeps the open and closed sets during the pass |
| CacheProperties.MemorySweepSelects | Services/RedisService.cs:466-490 | The fallback pass selects exactly the expired closed tickets, both to archive and to drop from the closed set |
| CacheProperties.FallbackSweepEffect | Services/RedisService.cs:465-498 | The fallback sweep archives exactly the expired closed tickets with a payload. It removes their payloads, their closed-set entries and their entries in the priority set of their priority. The open set, the other priority-set members, closed ids without a payload and the primary tier do not change |
| CacheProperties.MemorySweepTiers | Services/RedisService.cs:484-489 | The fallback pass removes from each priority set exactly the visited ids whose payload is expired and has that priority. The set of priority names stays the same |
| CacheProperties.PrimarySweepStepSets | Services/RedisService.cs:440-449 | One fault-free primary step removes an expired id from the set of its stored priority only, and leaves the open set alone |
| CacheProperties.PrimarySweepSets | Services/RedisService.cs:428-452 | A fault-free primary pass removes from each priority set exactly the visited ids whose payload is expired and has that priority. The open set is kept |
| CacheProperties.PrimarySweepCache | Services/RedisService.cs:428-452 | A fault-free primary pass deletes exactly the expired payloads of the ids it visits and leaves the fallback alone |
| CacheProperties.PrimarySweepSelects | Services/RedisService.cs:428-452 | A fault-free primary pass archives exactly the expired tickets and drops exactly their ids from the closed set |
| CacheProperties.SweepWithoutFault | Services/RedisService.cs:409-463 | A fault-free sweep on a healthy primary archives exactly the expired closed tickets there. It deletes their payloads and removes them from the closed set and from the priority set of their priority. Other payloads, the open set, the other priority-set members and the fallback tier do not change, and the flag stays set |
| CacheProperties.SweepArchivesOnlyExpired | Services/RedisService.cs:434-438 | Whatever fails, every archived ticket is Closed and strictly older than seven days |
| AckTracker.BuildMessage | Services/PubSubService.cs:53-57 | A published message carries the lower-case tier name as `priority` and the ticket id as `ticketId`, and its payload decodes to the ticket |
| AckTracker.FirstMatch | Services/PubSubService.cs:200-228 | The search position is the first message matching the ticket, either by attribute or by decoded id |
| AckTracker.FindAckId | Services/PubSubService.cs:200-245 | The recovery search finds nothing exactly when no message matches; otherwise it returns the first match's ack id |
| AckTracker.InitialTable | Services/PubSubService.cs:34-36 | The table starts with exactly the three empty tiers "high", "medium" and "low" |
| AckTracker.Record | Services/PubSubService.cs:85-93 | Recording stores the handle under (tier, id), overwriting, and leaves every other entry as it was |
| AckTracker.Forget | Services/PubSubService.cs:140 | Forgetting removes exactly one entry |
| AckTracker.Acknowledge | Services/PubSubService.cs:107-166 | A successful ack implies the ack call succeeded, and the table changes only when a handle was stored |
| AckTracker.PubSubService.PublishTicket | Services/PubSubService.cs:41-78 | A successful publish returns the message id and records it in the table under the ticket's tier; a failed one changes nothing |
| AckTracker.PubSubService.RegisterMessageId | Services/PubSubService.cs:81-104 | The new table is `Record` of the old one with the ack id |
| AckTracker.PubSubService.AcknowledgeTicket | Services/PubSubService.cs:107-166 | The result and the new table are those of `Acknowledge` |
| AckTracker.PubSubService.FindAndAcknowledge | Services/PubSubService.cs:169-262 | A failed pull throws. No match acks nothing and does not throw. A match acks the first matching handle, or throws when the ack fails |
| AckTracker.SearchFindsPublishedMessage | Services/PubSubService.cs:200-228 | A pulled batch holding the published message of a ticket always yields a match, at or before it |
| AckTracker.AcknowledgeStoredHandle | Services/PubSubService.cs:115-140 | With a stored handle, a working ack acks exactly that handle and removes only that entry. A failing ack rethrows and keeps the table |
| AckTracker.AcknowledgeWithoutHandle | Services/PubSubService.cs:153-159 | Without a stored handle the table is unchanged, and a batch with no match acks nothing without error |
| AckTracker.RegisterThenAcknowledge | Services/PubSubService.cs:85-140 | After registering an ack id, a working acknowledge acks exactly that id |
| AckTracker.PublishThenAcknowledge | Services/PubSubService.cs:64-68 | After a publish, acknowledging the ticket acks the recorded message id, which is a message id and not an ack id |
| Dispatcher.Kept | Controllers/FunctionController.cs:219-244 | The fetch keeps only tickets of the requested priority |
| Dispatcher.KeptMembers | Controllers/FunctionController.cs:219-244 | A (ticket, ack id) pair is kept exactly when some pulled message carries it, decodes, and has the requested priority |
| Dispatcher.Fetch | Controllers/FunctionController.cs:146-276 | The fetch throws exactly when the pull fails, or when something was kept and the single ack fails. It returns the kept tickets and acks exactly their ack ids |
| Dispatcher.FetchDropsOthers | Controllers/FunctionController.cs:219-244 | A malformed or mismatched message is not acked unless another message shares its ack id |
| Dispatcher.ProcessedIffNonEmpty | Controllers/FunctionController.cs:99-103 | A tier reports processed exactly when its pull succeeded, the filtered batch is non-empty and the ack succeeded; reporting nothing acks nothing |
| Dispatcher.Cascade | Controllers/FunctionController.cs:53-66 | Tiers are tried in High, Medium, Low order. Medium is tried exactly when High found nothing, and Low exactly when both found nothing |
| Dispatcher.SaveAll | Controllers/FunctionController.cs:108-112 | Saving a batch keeps the cache consistent and never sets the failover flag |
| Dispatcher.SaveAllStoresBatch | Controllers/FunctionController.cs:108-112 | Without faults, every batch ticket not overwritten by a later one is stored in the active tier |
| Dispatcher.SaveKeepsOtherPayloads | Services/RedisService.cs:103-171 | A fault-free save changes no payload stored under another ticket's key, in either tier |
| Dispatcher.SaveAllKeepsFlag | Controllers/FunctionController.cs:108-112 | Without faults, saving a batch leaves the flag unchanged |
| Dispatcher.NotifiedMembers | Controllers/FunctionController.cs:115-131 | Every ticket whose notification succeeds is notified, whatever happened to the others |
| Dispatcher.FunctionController.ProcessPriorityTickets | Controllers/FunctionController.cs:86-143 | A failed fetch rethrows, acks nothing and leaves the cache alone. Otherwise it acks exactly the kept ack ids, saves every fetched ticket in order, and says whether any was found; notification failures are isolated |
| Dispatcher.FunctionController.ProcessTickets | Controllers/FunctionController.cs:45-83 | Each tier is recorded as tried when its run starts, and the tiers tried are exactly the cascade of the reports. The run acks, notifies and saves exactly what the tried tiers' runs do, in tier order. It succeeds exactly when the last tier tried did not fail |
| Dispatcher.FunctionController.RunTier | Controllers/FunctionController.cs:53-66 | One branch of the cascade appends its tier to the tiers tried and extends the acks, notifications and saves by that tier's run |
| Dispatcher.FunctionController.RunLowerTiers | Controllers/FunctionController.cs:56-66 | When High found nothing, Medium is tried; Low is tried after it exactly when Medium found nothing. The result is that of the last tier tried, and the acks, notifications and saves extend over the tiers it tried |
| Dispatcher.CascadeAcks | Controllers/FunctionController.cs:53-66 | A run acks High's kept deliveries, Medium's only when High found nothing, and Low's only when both found nothing |
| CloudProcessor.StoreKeyInjective | CloudFunction/TicketProcessorFunction.cs:226 | A ticket is stored under "ticket:" followed by its id, and distinct ids have distinct store keys |
| CloudProcessor.FilterThrowsIffMalformed | CloudFunction/TicketProcessorFunction.cs:147-165 | The attribute filter throws exactly when a message with a matching attribute cannot be decoded |
| CloudProcessor.FilterByAttributeMembers | CloudFunction/TicketProcessorFunction.cs:147-165 | The filter keeps exactly the messages whose `priority` attribute equals the tier case-insensitively |
| CloudProcessor.FetchByAttribute | CloudFunction/TicketProcessorFunction.cs:121-175 | A pull or decode error yields an empty batch |
| CloudProcessor.PublishedMessageMatchesItsTier | CloudFunction/TicketProcessorFunction.cs:147-165 | A message as published matches the filter for its own tier name, so the two components agree on the attribute |
| CloudProcessor.Step | CloudFunction/TicketProcessorFunction.cs:177-209 | A ticket's effects begin with its save, or are empty when the save fails |
| CloudProcessor.TraceWellOrdered | CloudFunction/TicketProcessorFunction.cs:185-201 | In a batch's effect trace, each ticket's effects come in the order save, notify, ack |
| CloudProcessor.TraceAcksExactly | CloudFunction/TicketProcessorFunction.cs:185-208 | An ack id is acked exactly when its ticket's save and ack succeed; a failed save skips the ack |
| CloudProcessor.TraceSavesExactly | CloudFunction/TicketProcessorFunction.cs:185-208 | A ticket is saved exactly when its save succeeds, and notified exactly when it is saved, so email failures are swallowed and one ticket's failure does not stop the rest |
| CloudProcessor.StoreAllStores | CloudFunction/TicketProcessorFunction.cs:211-238 | Every successfully saved ticket not overwritten later is in the store under its key |
| CloudProcessor.StoreAllFrame | CloudFunction/TicketProcessorFunction.cs:211-238 | Keys of tickets not saved keep their old value |
| CloudProcessor.TicketProcessorFunction.ProcessTicket | CloudFunction/TicketProcessorFunction.cs:177-209 | One ticket writes the store only when the save succeeds and appends its step's effects to the log |
| CloudProcessor.TicketProcessorFunction.ProcessBatch | CloudFunction/TicketProcessorFunction.cs:73-76 | Processing a batch in order gives `StoreAll` and appends the batch's trace |
| CloudProcessor.TicketProcessorFunction.HandleAsync | CloudFunction/TicketProcessorFunction.cs:61-119 | The tiers tried follow the cascade on emptiness of the attribute batches, and only the last tier's batch is processed |
| Firestore.DocOfRoundTrip | Services/FirestoreService.cs:88-107 | A user document as written reads back as the same user, whatever key it sits under |
| Firestore.ToUser | Services/FirestoreService.cs:150-161 | A document without a Role field reads back as a User keyed by its email; a complete document reads back as itself |
| Firestore.RoleToUse | Services/FirestoreService.cs:67 | The requested role wins; otherwise an existing user's role; otherwise User |
| Firestore.ArchiveOf | Services/FirestoreService.cs:278-294 | The archive record is Closed, stamped with the closer and the time, and copies the ticket's fields |
| Firestore.SaveUser | Services/FirestoreService.cs:57-125 | A new user gets the requested role or User and is written. An existing user with no differing request keeps their role unwritten; a differing request is written. The returned role is the role read back |
| Firestore.FirestoreService.GetUserByEmail | Services/FirestoreService.cs:128-181 | A user is found exactly when its document exists, with a missing role read as User |
| Firestore.FirestoreService.SaveUserAsync | Services/FirestoreService.cs:57-125 | The new user map and the returned user are those of `SaveUser` |
| Firestore.FirestoreService.GetTechniciansAsync | Services/FirestoreService.cs:219-269 | The result holds exactly one converted user for each stored user whose role is Technician, each key visited once, and no others |
| Firestore.FirestoreService.ArchiveTicketAsync | Services/FirestoreService.cs:272-311 | The archive collection gains the record keyed by the ticket id, overwriting any earlier one |
| Workflows.CloseTicket | Controllers/TechnicianController.cs:101-148 | Close returns NotFound exactly for an unknown id and Forbid exactly for another owner's ticket, both without effects beyond the read. It archives only tickets older than seven days, and errors only when the ack fails |
| Workflows.CloseKnownTicket | Controllers/UserController.cs:134-145 | Closing a known ticket closes it in the cache, archives it as Closed by the closer exactly when it is older than seven days, and acknowledges it with the ticket's priority |
| Workflows.CloseWithStoredHandle | Controllers/TechnicianController.cs:120-131 | With a stored handle and a working ack, close succeeds and forgets exactly that handle |
| Technicians.CountOf | Controllers/TechnicianController.cs:162-172 | A count never exceeds the number of tickets |
| Technicians.InsertByDate | Controllers/TechnicianController.cs:174 | Inserting into a newest-first list keeps it newest-first and adds exactly one ticket |
| Technicians.SortNewestFirst | Controllers/TechnicianController.cs:174 | The ordering by descending upload date is newest-first and a permutation of the input |
| Technicians.DashboardOf | Controllers/TechnicianController.cs:150-185 | The dashboard's total and per-priority counts are those of the open tickets, and its recent list is the first min(n, 5) of them newest-first |
| Technicians.RecentAreNewest | Controllers/TechnicianController.cs:174 | The recent list is newest-first, drawn from the open tickets, and no left-out ticket is newer than any listed one |
| Technicians.CountsSumToTotal | Controllers/TechnicianController.cs:162-172 | The three priority counts of any list sum to its length |
| Technicians.DashboardCountsSum | Controllers/TechnicianController.cs:162-172 | The dashboard's high, medium and low counts sum to its total |
| Technicians.TechniciansController.GetAllTickets | Controllers/TechnicianController.cs:35-61 | All-tickets returns exactly the open listing |
| Technicians.TechniciansController.GetTicketsByPriority | Controllers/TechnicianController.cs:63-99 | A priority that does not parse gives BadRequest without reading the cache; one that does gives that priority's listing |
| Technicians.TechniciansController.CloseTicket | Controllers/TechnicianController.cs:101-148 | The technician close is the shared close workflow with any ticket allowed |
| Technicians.TechniciansController.GetDashboard | Controllers/TechnicianController.cs:150-185 | The dashboard is `DashboardOf` the open listing |
| Users.OwnedBy | Controllers/UserController.cs:46-49 | The owner filter keeps only tickets owned by the caller |
| Users.OwnedByMembers | Controllers/UserController.cs:46-49 | A ticket is kept exactly when it is listed and the caller is its owner |
| Users.OwnedByKeepsOwnList | Controllers/UserController.cs:46-49 | A list of the caller's own tickets is kept whole, in order |
| Users.OwnedByConcat | Controllers/UserController.cs:46-49 | The filter distributes over concatenation, so it preserves order |
| Users.UsersController.GetMyTickets | Controllers/UserController.cs:36-66 | My-tickets is the owner filter applied to the open listing |
| Users.UsersController.GetProfile | Controllers/UserController.cs:68-105 | A missing email claim is an error, a missing profile is NotFound, and otherwise the stored user is returned |
| Users.UsersController.CloseTicket | Controllers/UserController.cs:107-162 | The user close is the shared close workflow restricted to the caller's own tickets |
| TicketsApi.NewTicket | Controllers/TicketsController.cs:68-77 | A new ticket is Open, owned by the caller, with the requested priority, the uploaded urls and the current time |
| TicketsApi.TicketsController.CreateTicket | Controllers/TicketsController.cs:42-104 | The caller is upserted, defaulting to "anonymous@example.com", with the existing role kept. A failed publish returns an error with the cache and ack table untouched; otherwise the ticket is recorded and then saved |
| TicketsApi.TicketsController.GetTicket | Controllers/TicketsController.cs:106-148 | An unknown id is NotFound; a technician or the owner sees the ticket; anyone else gets Forbid |
| TicketsApi.TicketsController.CloseTicket | Controllers/TicketsController.cs:150-201 | The tickets-endpoint close is the shared close workflow, which writes the Closed status before archiving |
| ProcessorService.PriorityFromString | Services/TicketProcessorService.cs:95-104 | The three names map to their priorities case-insensitively; anything else maps to Low |
| ProcessorService.PriorityFromStringRoundTrip | Services/TicketProcessorService.cs:97-101 | Each priority's name maps back to it |
| ProcessorService.Placeholder | Services/TicketProcessorService.cs:70-79 | Each tier's ticket is Open, has the tier's priority and the given id |
| ProcessorService.Visited | Services/TicketProcessorService.cs:43-59 | The pass gets through each tier whose notification succeeds and stops at the first one that throws |
| ProcessorService.CacheAfterHoldsPlaceholders | Services/TicketProcessorService.cs:70-82 | Each visited tier caches exactly one Open ticket, with that tier's priority, under its id |
| ProcessorService.CacheAfterFrame | Services/TicketProcessorService.cs:82 | Keys of no visited tier keep their old value |
| ProcessorService.TicketProcessorService.ProcessPriorityTickets | Services/TicketProcessorService.cs:62-92 | One tier adds its placeholder to the cache |
| ProcessorService.TicketProcessorService.ProcessTickets | Services/TicketProcessorService.cs:36-60 | The run visits high, medium and low in order with no cascade, reports success exactly when no tier throws, and caches the visited tiers' tickets |

## Left out

- Network clients are not modelled: the Redis, Pub/Sub and Firestore SDKs and lazy connection setup. The primary cache is a value with a fault oracle, and pulls and publish results are parameters.
- The seven-day key expiry is not modelled. That covers the primary tier's payload writes (Services/RedisService.cs:121), which have no in-memory counterpart. It also covers the Cloud Run function's store writes (CloudFunction/TicketProcessorFunction.cs:225-229): CloudProcessor.StoreAll keeps a stored ticket forever.
- At most one primary call fails per cache operation (`Fault` names a single call).
- JSON serialisation is not modelled: a payload is the ticket value or `Malformed`.
- Floating-point `TotalDays` is replaced by integer seconds with the same strict "more than seven days" test.
- Concurrency is not modelled: concurrent dictionaries, async interleavings and overlapping dispatcher runs. Everything is sequential.
- CacheStore.Save never throws on the in-memory path, because the three priority sets always exist. So the dispatcher's rethrow of a cache-save exception (Controllers/FunctionController.cs:111, 138-142, 75-82) is unreachable in the model.
- CloudProcessor.TicketProcessorFunction.HandleAsync does not model the HTTP 500 path, because every error in its tiers is caught below it.
- Firestore and archive calls never fail in the model. The catch blocks around them in the controllers are not modelled.
- Firestore.ToUser treats a document with both Role and CreatedAt fields as convertible, and otherwise uses the fallback conversion. Other conversion failures are not modelled.
- Tickets.ParsePriority accepts only the three names, with ASCII case folding. `Enum.TryParse` also accepts numeric strings, trims surrounding whitespace and combines comma-separated names. None of that is modelled.
- Tickets.EqualsIgnoreCase, used by CloudProcessor.TierMatches, folds ASCII letters only. `StringComparison.OrdinalIgnoreCase` (CloudFunction/TicketProcessorFunction.cs:153) also folds non-ASCII letters, so an attribute that differs from the tier name only in a non-ASCII letter's case is not matched in the model.
- ProcessorService.PriorityFromString lower-cases with ASCII folding only. `ToLower()` (Services/TicketProcessorService.cs:97) depends on the culture and also lower-cases non-ASCII letters. An input that reaches one of the three names only through such folding maps to Low in the model.
- Technicians.SortNewestFirst proves the order and the permutation, but not the stability of `OrderByDescending` among tickets with the same upload date.
- Firestore.FirestoreService.GetTechniciansAsync returns the technicians in an unspecified enumeration order; the query's own order is not modelled.
- UpdateUserAsync (Services/FirestoreService.cs:184-216) is covered only through the role rule of `Firestore.SaveUser`.
- The ticket id generator and the screenshot upload are inputs (`newId`, `imageUrls`). The email notification, Mailgun, Cloud Logging and secret lookups are outcome parameters or left out.
- Placeholder tickets in the stub processor have no image urls. The Models project is not part of this model.
- Subscription auto-creation (Controllers/FunctionController.cs:166-201) is not modelled.
- The `NotifyTicket` endpoint of the tickets controller is not modelled.
- AuthController, Program.cs, CloudFunction/Function.cs and ProcessorController are not modelled.
- EmailService and SecretManagerService are not part of this model.
- CacheStore.RedisService.TestConnection does not write its one-minute test key into the primary keyspace; only its effect on the flag is modelled.
