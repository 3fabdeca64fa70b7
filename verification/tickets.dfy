/** Shared vocabulary of the ticket system: the ticket record with its
    priority and status enums, the `Option` wrapper used for the source's
    nullable results, ASCII case folding, and the one-week retention rule. */
module Tickets {

  datatype Option<+T> = None | Some(value: T) {
    /** `x ?? default` */
    function GetOr(default: T): T {
      match this
      case Some(v) => v
      case None => default
    }
  }

  /** A call that either returns a value or throws (the exception's contents
      are not modelled). */
  datatype Outcome<+T> = Done(value: T) | Threw

  /** `TicketPriority`; the declaration order High, Medium, Low is the cascade order. */
  datatype Priority = High | Medium | Low

  /** `TicketStatus`; within this model a ticket only ever moves from Open to Closed. */
  datatype Status = Open | Closed

  /** The `Ticket` record. `dateUploaded` is a timestamp in whole seconds. */
  datatype Ticket = Ticket(
    id: string,
    title: string,
    description: string,
    userEmail: string,
    priority: Priority,
    status: Status,
    imageUrls: seq<string>,
    dateUploaded: int)

  /** `priority.ToString().ToLower()`: the tier name used in cache keys,
      Pub/Sub attributes and the ack-handle table. */
  function PriorityName(p: Priority): (name: string)
    ensures name == "high" || name == "medium" || name == "low"
  {
    match p
    case High => "high"
    case Medium => "medium"
    case Low => "low"
  }

  /** `priority.ToString()`: the enum member name. */
  function PriorityTitle(p: Priority): string {
    match p
    case High => "High"
    case Medium => "Medium"
    case Low => "Low"
  }

  /** Distinct priorities have distinct tier names, so a tier name identifies its priority. */
  lemma PriorityNameInjective(p: Priority, q: Priority)
    requires PriorityName(p) == PriorityName(q)
    ensures p == q
  {
    match p
    case High => assert PriorityName(q)[0] == 'h';
    case Medium => assert PriorityName(q)[0] == 'm';
    case Low => assert PriorityName(q)[0] == 'l';
  }

  /** ASCII lower-casing of one character. */
  function LowerChar(c: char): char {
    if 'A' <= c <= 'Z' then (c as int + 32) as char else c
  }

  /** `s.ToLower()`, restricted to ASCII letters. */
  function Lower(s: string): (r: string)
    ensures |r| == |s|
    ensures forall i :: 0 <= i < |s| ==> r[i] == LowerChar(s[i])
  {
    seq(|s|, i requires 0 <= i < |s| => LowerChar(s[i]))
  }

  /** `a.Equals(b, StringComparison.OrdinalIgnoreCase)` for ASCII text. */
  predicate EqualsIgnoreCase(a: string, b: string) {
    Lower(a) == Lower(b)
  }

  /** Case-insensitive parse of a priority name; `None` when it names no priority. */
  function ParsePriority(s: string): (r: Option<Priority>)
    ensures r.Some? <==> Lower(s) == "high" || Lower(s) == "medium" || Lower(s) == "low"
    ensures r.Some? ==> PriorityName(r.value) == Lower(s)
  {
    var l := Lower(s);
    if l == "high" then Some(High)
    else if l == "medium" then Some(Medium)
    else if l == "low" then Some(Low)
    else None
  }

  /** Lower-casing a string that has no upper-case ASCII letter changes nothing. */
  lemma {:induction false} LowerOfLower(s: string)
    requires forall i :: 0 <= i < |s| ==> !('A' <= s[i] <= 'Z')
    ensures Lower(s) == s
  {
    assert forall i :: 0 <= i < |s| ==> Lower(s)[i] == s[i];
  }

  /** Both spellings the source produces for a priority parse back to it:
      the tier name and the enum member name. */
  lemma ParsePriorityRoundTrip(p: Priority)
    ensures ParsePriority(PriorityName(p)) == Some(p)
    ensures ParsePriority(PriorityTitle(p)) == Some(p)
  {
    LowerOfLower(PriorityName(p));
    assert Lower(PriorityTitle(p)) == PriorityName(p);
  }

  /** A parsed priority is the priority whose tier name is the lower-cased
      input, and every priority is reachable that way. */
  lemma ParsePriorityExact(s: string, p: Priority)
    ensures ParsePriority(s) == Some(p) <==> Lower(s) == PriorityName(p)
  {
    if Lower(s) == PriorityName(p) {
      assert ParsePriority(s).Some?;
      PriorityNameInjective(ParsePriority(s).value, p);
    }
  }

  const SecondsPerDay: int := 86400
  const RetentionDays: int := 7

  /** `(DateTime.UtcNow - ticket.DateUploaded).TotalDays > 7`, with time in seconds. */
  predicate OlderThanRetention(t: Ticket, now: int) {
    now - t.dateUploaded > RetentionDays * SecondsPerDay
  }
}
