/** The `Ticket` model: its ENUM columns, the record, and what makes a ticket
    table well formed. */
module TicketModel {
  import opened Storage

  /** The `priority` column: ENUM('High', 'Medium', 'Low'), no default. */
  datatype Priority = High | Medium | Low

  /** The `status` column: ENUM('Open', 'In Progress', 'Closed'). No handler
      ever writes `InProgress` (the table keeps `NoTicketInProgress`); the
      value exists only in the schema. */
  datatype Status = Open | InProgress | Closed

  /** The column default of `status`. */
  const DefaultStatus: Status := Open

  /** The text stored in the `priority` column for each value. */
  function PriorityName(p: Priority): string
  {
    match p
    case High => "High"
    case Medium => "Medium"
    case Low => "Low"
  }

  /** Whether the database accepts a request's priority text for the ENUM
      column: exactly the three stored names are accepted, each as its own
      value, and any other text is refused (the write then throws). */
  function ParsePriority(text: string): (r: Option<Priority>)
    ensures r.Some? ==> PriorityName(r.value) == text
    ensures r.None? ==> forall p: Priority :: PriorityName(p) != text
  {
    if text == "High" then Some(High)
    else if text == "Medium" then Some(Medium)
    else if text == "Low" then Some(Low)
    else None
  }

  lemma PriorityRoundTrip(p: Priority)
    ensures ParsePriority(PriorityName(p)) == Some(p)
  {
  }

  /** The range of an INTEGER column: a signed 32-bit value. */
  const IntegerMin: int := -0x8000_0000
  const IntegerMax: int := 0x7fff_ffff

  /** Whether the nullable INTEGER `assignee` column can hold the value:
      absent (NULL), or a number in the 32-bit range. Anything else makes the
      write throw. */
  predicate AssigneeFits(assignee: Option<int>)
  {
    assignee.None? || IntegerMin <= assignee.value <= IntegerMax
  }

  /** One row of the `tickets` table. `title`, `description`, `categoryId`,
      `priority` and `status` are NOT NULL, so they are plain fields;
      `assignee` is a nullable INTEGER. The timestamps are left out. */
  datatype Ticket = Ticket(
    id: Uuid,
    title: string,
    description: string,
    categoryId: Uuid,
    priority: Priority,
    status: Status,
    assignee: Option<int>)

  /** `id` is the primary key: each row is stored under its own id, so two
      rows never share one. */
  ghost predicate TicketTableKeyed(tickets: map<Uuid, Ticket>)
  {
    forall id :: id in tickets ==> tickets[id].id == id
  }

  /** The status state machine has no way into 'In Progress': creation
      gives Open, close gives Closed, and no other handler writes `status`. */
  ghost predicate NoTicketInProgress(tickets: map<Uuid, Ticket>)
  {
    forall id :: id in tickets ==> tickets[id].status != InProgress
  }
}
