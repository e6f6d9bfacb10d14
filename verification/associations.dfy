/** The association between the two models: a ticket belongs to one category
    through its `categoryId` foreign key, and a category has many tickets
    through the same key. Nothing at this level checks or cascades the key. */
module Associations {
  import opened Storage
  import opened TicketModel
  import opened CategoryModel

  /** `Ticket.belongsTo(Category)`: the category the ticket's foreign key
      names, when one is stored under it. */
  function CategoryOf(t: Ticket, categories: map<Uuid, Category>): Option<Category>
  {
    if t.categoryId in categories then Some(categories[t.categoryId]) else None
  }

  /** `Category.hasMany(Ticket)`: the ids of the tickets filed under `c`. */
  function TicketsOf(c: Uuid, tickets: map<Uuid, Ticket>): set<Uuid>
  {
    set tid | tid in tickets && tickets[tid].categoryId == c
  }

  /** Every ticket's foreign key names a stored category. The ticket handlers
      check this for the ticket they write; nothing keeps it afterwards. */
  ghost predicate ReferencesResolve(tickets: map<Uuid, Ticket>, categories: map<Uuid, Category>)
  {
    forall tid :: tid in tickets ==> tickets[tid].categoryId in categories
  }

  /** The two associations are two readings of one foreign key: a ticket is
      among a category's tickets exactly when its own category resolves to
      that category. */
  lemma AssociationsAgree(tickets: map<Uuid, Ticket>, categories: map<Uuid, Category>, c: Uuid, tid: Uuid)
    requires CategoryTableKeyed(categories) && c in categories
    ensures tid in TicketsOf(c, tickets) <==>
              tid in tickets && CategoryOf(tickets[tid], categories) == Some(categories[c])
  {
    if tid in tickets && CategoryOf(tickets[tid], categories) == Some(categories[c]) {
      var k := tickets[tid].categoryId;
      assert categories[k].id == k && categories[c].id == c;
    }
  }

  /** Removing a category that still has tickets leaves each of them
      dangling: the ticket keeps its foreign key, which now names no
      category, so the references no longer all resolve. */
  lemma RemovalLeavesDangling(tickets: map<Uuid, Ticket>, categories: map<Uuid, Category>, c: Uuid)
    requires TicketsOf(c, tickets) != {}
    ensures !ReferencesResolve(tickets, categories - {c})
    ensures forall tid :: tid in TicketsOf(c, tickets) ==>
              tid in tickets && CategoryOf(tickets[tid], categories - {c}) == None
  {
    var tid :| tid in TicketsOf(c, tickets);
    assert tickets[tid].categoryId !in categories - {c};
  }
}
