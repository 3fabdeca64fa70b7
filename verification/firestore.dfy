/** The document store (`FirestoreService`): a `users` collection keyed by
    e-mail, whose role is preserved unless a different one is requested, and
    a `ticket-archives` collection of closed-ticket records keyed by ticket id. */
module Firestore {
  import opened Tickets

  datatype UserRole = User | Technician

  /** A user as the application sees it; `createdAt` in seconds. */
  datatype AppUser = AppUser(email: string, role: UserRole, createdAt: int)

  /** A stored user document: its `Email`, `Role` and `CreatedAt` fields, the
      last two possibly absent. */
  datatype UserDoc = UserDoc(email: string, role: Option<UserRole>, createdAt: Option<int>)

  /** The document `SaveUserAsync` / `UpdateUserAsync` write for a user. */
  function DocOf(u: AppUser): (d: UserDoc)
    ensures d.email == u.email && d.role == Some(u.role) && d.createdAt == Some(u.createdAt)
  {
    UserDoc(u.email, Some(u.role), Some(u.createdAt))
  }

  /** Reading document `key` back as a user. The typed conversion is taken to
      succeed when every field is present; otherwise the manual conversion
      uses the key as e-mail, `User` for a missing role and `now` for a missing
      creation time. */
  function ToUser(key: string, d: UserDoc, now: int): (u: AppUser)
    ensures u.role == d.role.GetOr(User)
    ensures d.role.None? ==> u.role == User && u.email == key
    ensures d.role.Some? && d.createdAt.Some? ==> u == AppUser(d.email, d.role.value, d.createdAt.value)
  {
    if d.role.Some? && d.createdAt.Some? then AppUser(d.email, d.role.value, d.createdAt.value)
    else AppUser(key, d.role.GetOr(User), d.createdAt.GetOr(now))
  }

  /** A written user document reads back as the user that was written. */
  lemma DocOfRoundTrip(u: AppUser, key: string, now: int)
    ensures ToUser(key, DocOf(u), now) == u
  {
  }

  /** The role `SaveUserAsync` settles on: the requested one, else the existing
      user's, else `User`. */
  function RoleToUse(requested: Option<UserRole>, existing: Option<AppUser>): (role: UserRole)
    ensures requested.Some? ==> role == requested.value
    ensures requested.None? && existing.Some? ==> role == existing.value.role
    ensures requested.None? && existing.None? ==> role == User
  {
    match requested
    case Some(r) => r
    case None => if existing.Some? then existing.value.role else User
  }

  /** The `ticket-archives` record: the ticket's fields with status forced to
      Closed, who closed it and when. */
  datatype ArchiveRecord = ArchiveRecord(
    id: string, title: string, description: string, userEmail: string, dateUploaded: int,
    imageUrls: seq<string>, priority: Priority, status: Status, closedBy: string, closedAt: int)

  function ArchiveOf(t: Ticket, closedBy: string, now: int): (a: ArchiveRecord)
    ensures a.status == Closed && a.closedBy == closedBy && a.closedAt == now
    ensures a.id == t.id && a.title == t.title && a.description == t.description && a.userEmail == t.userEmail
    ensures a.dateUploaded == t.dateUploaded && a.imageUrls == t.imageUrls && a.priority == t.priority
  {
    ArchiveRecord(t.id, t.title, t.description, t.userEmail, t.dateUploaded, t.imageUrls, t.priority, Closed, closedBy, now)
  }

  /** Every user document is stored under its own e-mail. */
  predicate KeyedByEmail(users: map<string, UserDoc>) {
    forall k :: k in users ==> users[k].email == k
  }

  /** `SaveUserAsync` on the collection: the collection afterwards and the returned user. */
  function SaveUser(users: map<string, UserDoc>, email: string, requested: Option<UserRole>, now: int)
    : (r: (map<string, UserDoc>, AppUser))
    ensures KeyedByEmail(users) ==> KeyedByEmail(r.0)
    // a new user gets the requested role, or User, and is written
    ensures email !in users ==> r.1 == AppUser(email, requested.GetOr(User), now) && r.0 == users[email := DocOf(r.1)]
    // an existing user keeps their role, unwritten, unless a different role is requested
    ensures email in users && requested.None? ==> r.0 == users && r.1.role == users[email].role.GetOr(User)
    ensures email in users && requested == Some(users[email].role.GetOr(User)) ==> r.0 == users
    ensures KeyedByEmail(users) && email in users && requested.Some? && requested.value != users[email].role.GetOr(User)
            ==> r.1.role == requested.value && r.1.email == email && r.0 == users[email := DocOf(r.1)]
    // the returned user is what reading it back gives
    ensures KeyedByEmail(users) ==> r.1.email == email && email in r.0 && ToUser(email, r.0[email], now).role == r.1.role
  {
    var existing := if email in users then Some(ToUser(email, users[email], now)) else None;
    var role := RoleToUse(requested, existing);
    match existing
    case Some(u) =>
      if u.role != role && requested.Some? then
        var updated := u.(role := role);
        (users[updated.email := DocOf(updated)], updated)
      else (users, u)
    case None =>
      var created := AppUser(email, role, now);
      (users[email := DocOf(created)], created)
  }

  class FirestoreService {
    var users: map<string, UserDoc>
    var archives: map<string, ArchiveRecord>

    predicate Valid()
      reads this
    {
      KeyedByEmail(users)
    }

    constructor(users: map<string, UserDoc>, archives: map<string, ArchiveRecord>)
      requires KeyedByEmail(users)
      ensures Valid() && this.users == users && this.archives == archives
    {
      this.users := users;
      this.archives := archives;
    }

    /** `GetUserByEmailAsync`: `None` when no document has that key. */
    function GetUserByEmail(email: string, now: int): (r: Option<AppUser>)
      reads this
      ensures r.Some? <==> email in users
      ensures r.Some? ==> r.value.role == users[email].role.GetOr(User)
    {
      if email in users then Some(ToUser(email, users[email], now)) else None
    }

    /** `SaveUserAsync`. */
    method SaveUserAsync(email: string, requested: Option<UserRole>, now: int) returns (u: AppUser)
      requires Valid()
      modifies this`users
      ensures Valid()
      ensures (users, u) == SaveUser(old(users), email, requested, now)
    {
      var existing := GetUserByEmail(email, now);
      var role := RoleToUse(requested, existing);
      if existing.Some? {
        u := existing.value;
        if u.role != role && requested.Some? {
          u := u.(role := role);
          users := users[u.email := DocOf(u)];
        }
        return;
      }
      u := AppUser(email, role, now);
      users := users[email := DocOf(u)];
    }

    /** `GetTechniciansAsync`: each document whose stored role is Technician,
        exactly once, in the order the query returns them (chosen here). */
    method GetTechniciansAsync(now: int) returns (technicians: seq<AppUser>, ghost order: seq<string>)
      ensures |technicians| == |order|
      ensures forall i, j :: 0 <= i < j < |order| ==> order[i] != order[j]
      ensures forall k :: k in order ==> k in users && users[k].role == Some(Technician)
      ensures forall k :: k in users && users[k].role == Some(Technician) ==> k in order
      ensures forall i :: 0 <= i < |order| ==> technicians[i] == ToUser(order[i], users[order[i]], now)
      ensures forall u :: u in technicians ==> u.role == Technician
    {
      var remaining := set k | k in users && users[k].role == Some(Technician);
      technicians := [];
      order := [];
      while remaining != {}
        invariant remaining <= set k | k in users && users[k].role == Some(Technician)
        invariant |technicians| == |order|
        invariant forall i, j :: 0 <= i < j < |order| ==> order[i] != order[j]
        invariant forall k :: k in order ==> k !in remaining
        invariant forall k :: k in order ==> k in users && users[k].role == Some(Technician)
        invariant forall k :: k in users && users[k].role == Some(Technician) ==> k in order || k in remaining
        invariant forall i :: 0 <= i < |order| ==> technicians[i] == ToUser(order[i], users[order[i]], now)
        invariant forall u :: u in technicians ==> u.role == Technician
        decreases |remaining|
      {
        var k :| k in remaining;
        technicians := technicians + [ToUser(k, users[k], now)];
        order := order + [k];
        remaining := remaining - {k};
      }
    }

    /** `ArchiveTicketAsync`: writes the record under the ticket's id. */
    method ArchiveTicketAsync(t: Ticket, closedBy: string, now: int)
      modifies this`archives
      ensures archives == old(archives)[t.id := ArchiveOf(t, closedBy, now)]
    {
      archives := archives[t.id := ArchiveOf(t, closedBy, now)];
    }
  }
}
