/** Request sequences against a `Desk`, proved from the handlers' contracts
    alone: closing twice, reading back what was created, deleting a category
    that still has tickets, and a whole ticket's life. */
module Scenarios {
  import opened Storage
  import opened TicketModel
  import opened CategoryModel
  import opened Associations
  import opened Controllers

  /** Closing is idempotent: the second close answers like the first and
      leaves the table exactly as one close did. */
  method CloseTwice(desk: Desk, id: Uuid) returns (first: Outcome, second: Outcome)
    requires desk.Valid() && id in desk.tickets
    modifies desk`tickets
    ensures first == TicketClosed && second == TicketClosed
    ensures desk.tickets == old(desk.tickets)[id := old(desk.tickets)[id].(status := Closed)]
  {
    first := desk.CloseTicket(id, false);
    ghost var once := desk.tickets;
    second := desk.CloseTicket(id, false);
    assert desk.tickets == once;
  }

  /** Creating a ticket and reading it back gives every field the caller
      supplied, status 'Open', and the id it was created under. */
  method CreateThenGet(desk: Desk, title: string, description: string, category: Uuid,
                       priority: string, assignee: Option<int>, newId: Uuid)
    returns (o: Outcome)
    requires desk.Valid()
    requires title != "" && description != "" && category != "" && priority != ""
    requires category in desk.categories && newId !in desk.tickets
    requires ParsePriority(priority).Some? && AssigneeFits(assignee)
    modifies desk`tickets
    ensures o.TicketOk?
    ensures o.ticket.id == newId && o.ticket.title == title && o.ticket.description == description
    ensures o.ticket.categoryId == category && PriorityName(o.ticket.priority) == priority
    ensures o.ticket.assignee == assignee && o.ticket.status == Open
  {
    var created := desk.CreateTicket(title, description, category, priority, assignee, newId, false, false);
    o := desk.GetTicketById(newId, false);
  }

  /** Deleting a category a ticket is filed under succeeds, and the ticket
      keeps pointing at the category that is now gone. */
  method DeleteReferencedCategory(desk: Desk, c: Uuid, tid: Uuid) returns (o: Outcome)
    requires desk.Valid()
    requires c in desk.categories && tid in desk.tickets && desk.tickets[tid].categoryId == c
    modifies desk`categories
    ensures o == CategoryDeleted
    ensures tid in desk.tickets && desk.tickets[tid].categoryId == c && c !in desk.categories
    ensures !ReferencesResolve(desk.tickets, desk.categories)
  {
    assert tid in TicketsOf(c, desk.tickets);
    RemovalLeavesDangling(desk.tickets, desk.categories, c);
    o := desk.DeleteCategory(c, false);
  }

  /** A ticket's life on a fresh desk: category "Billing" as C1, ticket T1
      filed under it with priority High, assigned to "agent-7", then closed.
      Reading T1 back shows it Closed and still unassigned, since assigning
      does not reach the `assignee` column. */
  method BillingScenario() returns (o: Outcome)
    ensures o == TicketOk(Ticket("T1", "Invoice error", "Charged twice", "C1", High, Closed, None))
  {
    var desk := new Desk();
    var category := desk.CreateCategory("Billing", None, "C1", false);
    assert category.CategoryCreated?;
    var created := desk.CreateTicket("Invoice error", "Charged twice", "C1", "High", None, "T1", false, false);
    assert created.TicketCreated? && created.ticket.status == Open;
    var assignReply := desk.AssignTicket("T1", "agent-7", false);
    assert assignReply == TicketAssigned && desk.tickets["T1"].assignee == None;
    var closed := desk.CloseTicket("T1", false);
    assert closed == TicketClosed;
    o := desk.GetTicketById("T1", false);
  }
}
