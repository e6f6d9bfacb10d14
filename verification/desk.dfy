/** The two controllers as one `Desk` holding the `tickets` and `categories`
    tables. Each handler is one atomic load, check, mutate and save step and
    returns an `Outcome` in place of the HTTP response it sends.

    Faults are parameters: `storageFails` says that a storage call inside the
    handler's try block throws, `lookupFails` that the lookup inside
    `validateCategory` throws. `newId` is the UUID the ORM draws for a new row. */
module Controllers {
  import opened Storage
  import opened TicketModel
  import opened CategoryModel
  import opened Associations

  /** The responses the handlers send, one constructor per distinct response. */
  datatype Outcome =
    | TicketOk(ticket: Ticket)                 // 200, the ticket
    | TicketCreated(ticket: Ticket)            // 201, the new ticket
    | TicketList(ticketRows: seq<Ticket>)      // 200, all tickets
    | TicketAssigned                           // 200 'Ticket assigned successfully'
    | TicketClosed                             // 200 'Ticket closed successfully'
    | TicketNotFound                           // 200 'Ticket not found'
    | CategoryNotFound                         // 200 'Category not found' (ticket create/update)
    | CategoryOk(category: Category)           // 200, the category
    | CategoryCreated(category: Category)      // 201, the new category
    | CategoryList(categoryRows: seq<Category>) // 200, all categories
    | CategoryDeleted                          // 200 'Category deleted successfully'
    | NotFound404                              // 404 'Category not found' (category handlers)
    | ServerError                              // 500 'Internal Server Error'
  {
    /** The HTTP status code the handler sends with this response. */
    function StatusCode(): int
    {
      match this
      case TicketCreated(_) => 201
      case CategoryCreated(_) => 201
      case NotFound404 => 404
      case ServerError => 500
      case _ => 200
    }

    /** The `message` of a response whose body is a message, if it is one. */
    function Message(): Option<string>
    {
      match this
      case TicketAssigned => Some("Ticket assigned successfully")
      case TicketClosed => Some("Ticket closed successfully")
      case TicketNotFound => Some("Ticket not found")
      case CategoryNotFound => Some("Category not found")
      case CategoryDeleted => Some("Category deleted successfully")
      case NotFound404 => Some("Category not found")
      case ServerError => Some("Internal Server Error")
      case _ => None
    }
  }

  class Desk {
    var tickets: map<Uuid, Ticket>
    var categories: map<Uuid, Category>

    /** Both tables are keyed by their primary key. Nothing requires a
        ticket's category to exist: deleting a category may leave tickets
        pointing at it. */
    ghost predicate Valid()
      reads this
    {
      TicketTableKeyed(tickets) && CategoryTableKeyed(categories)
    }

    constructor ()
      ensures Valid()
      ensures tickets == map[] && categories == map[]
    {
      tickets := map[];
      categories := map[];
    }

    // ---------------------------------------------------------------
    // Ticket handlers
    // ---------------------------------------------------------------

    /** `validateCategory`: fails closed. True exactly when the lookup
        succeeds and finds the category; a thrown lookup gives false, never
        an error. */
    function ValidateCategory(categoryId: Uuid, lookupFails: bool): (valid: bool)
      reads this
      ensures valid <==> !lookupFails && categoryId in categories
    {
      match FindByPk(categories, categoryId, lookupFails)
      case Found(_) => true
      case Missing => false
      case Fault => false
    }

    /** `listAllTickets`: every stored ticket once, and nothing else. */
    method ListAllTickets(storageFails: bool) returns (o: Outcome)
      requires Valid()
      ensures storageFails ==> o == ServerError
      ensures !storageFails ==> o.TicketList? && |o.ticketRows| == |tickets|
      ensures !storageFails ==> forall id :: id in tickets ==> tickets[id] in o.ticketRows
      ensures !storageFails ==> forall t :: t in o.ticketRows ==> t.id in tickets && tickets[t.id] == t
    {
      if storageFails {
        return ServerError;
      }
      var rows, _ := FindAll(tickets);
      o := TicketList(rows);
    }

    /** `getTicketById`: the stored ticket, or the 'Ticket not found'
        message, which is sent with status 200 rather than 404. */
    method GetTicketById(id: Uuid, storageFails: bool) returns (o: Outcome)
      ensures storageFails ==> o == ServerError
      ensures !storageFails && id in tickets ==> o == TicketOk(tickets[id])
      ensures !storageFails && id !in tickets ==>
                o == TicketNotFound && o.Message() == Some("Ticket not found")
      ensures !storageFails ==> o.StatusCode() == 200
    {
      match FindByPk(tickets, id, storageFails)
      case Fault => o := ServerError;
      case Missing => o := TicketNotFound;
      case Found(ticket) => o := TicketOk(ticket);
    }

    /** `createTicket`: the category is checked first; only then is a new
        row written, with status 'Open' and the caller's fields. An unknown
        priority text, an assignee outside the INTEGER column or a taken id
        makes the insert throw. */
    method CreateTicket(title: string, description: string, category: Uuid, priority: string,
                        assignee: Option<int>, newId: Uuid, lookupFails: bool, storageFails: bool)
      returns (o: Outcome)
      requires Valid()
      requires title != "" && description != "" && category != "" && priority != ""
      modifies this`tickets
      ensures Valid()
      ensures !ValidateCategory(category, lookupFails) ==>
                && o == CategoryNotFound && o.StatusCode() == 200
                && o.Message() == Some("Category not found") && tickets == old(tickets)
      ensures ValidateCategory(category, lookupFails) &&
              (storageFails || newId in old(tickets) || ParsePriority(priority).None? ||
               !AssigneeFits(assignee)) ==>
                o == ServerError && tickets == old(tickets)
      ensures ValidateCategory(category, lookupFails) &&
              !storageFails && newId !in old(tickets) && ParsePriority(priority).Some? &&
              AssigneeFits(assignee) ==>
                var t := Ticket(newId, title, description, category, ParsePriority(priority).value,
                                DefaultStatus, assignee);
                o == TicketCreated(t) && tickets == old(tickets)[newId := t]
      ensures ReferencesResolve(old(tickets), categories) ==> ReferencesResolve(tickets, categories)
      ensures NoTicketInProgress(old(tickets)) ==> NoTicketInProgress(tickets)
    {
      var isCategoryValid := ValidateCategory(category, lookupFails);
      if !isCategoryValid {
        return CategoryNotFound;
      }
      var p := ParsePriority(priority);
      if storageFails || newId in tickets || p.None? || !AssigneeFits(assignee) {
        return ServerError;
      }
      var t := Ticket(newId, title, description, category, p.value, Open, assignee);
      tickets := tickets[newId := t];
      o := TicketCreated(t);
    }

    /** `updateTicket`: the category is checked BEFORE the ticket is looked
        up. On success exactly title, description, categoryId and priority
        are overwritten; id, status and assignee keep their values. */
    method UpdateTicket(id: Uuid, title: string, description: string, category: Uuid, priority: string,
                        lookupFails: bool, storageFails: bool)
      returns (o: Outcome)
      requires Valid()
      requires title != "" && description != "" && category != "" && priority != ""
      modifies this`tickets
      ensures Valid()
      ensures !ValidateCategory(category, lookupFails) ==>
                o == CategoryNotFound && tickets == old(tickets)
      ensures ValidateCategory(category, lookupFails) && storageFails ==>
                o == ServerError && tickets == old(tickets)
      ensures ValidateCategory(category, lookupFails) && !storageFails && id !in old(tickets) ==>
                o == TicketNotFound && tickets == old(tickets)
      ensures ValidateCategory(category, lookupFails) && !storageFails && id in old(tickets) &&
              ParsePriority(priority).None? ==>
                o == ServerError && tickets == old(tickets)
      ensures ValidateCategory(category, lookupFails) && !storageFails && id in old(tickets) &&
              ParsePriority(priority).Some? ==>
                && id in tickets
                && tickets == old(tickets)[id := tickets[id]]
                && o == TicketOk(tickets[id])
                && tickets[id].title == title
                && tickets[id].description == description
                && tickets[id].categoryId == category
                && tickets[id].priority == ParsePriority(priority).value
                && tickets[id].id == old(tickets)[id].id
                && tickets[id].status == old(tickets)[id].status
                && tickets[id].assignee == old(tickets)[id].assignee
      ensures ReferencesResolve(old(tickets), categories) ==> ReferencesResolve(tickets, categories)
      ensures NoTicketInProgress(old(tickets)) ==> NoTicketInProgress(tickets)
    {
      var isCategoryValid := ValidateCategory(category, lookupFails);
      if !isCategoryValid {
        return CategoryNotFound;
      }
      match FindByPk(tickets, id, storageFails)
      case Fault => o := ServerError;
      case Missing => o := TicketNotFound;
      case Found(ticket) =>
        var p := ParsePriority(priority);
        if p.None? {
          // save() refuses a value outside the ENUM and throws
          o := ServerError;
        } else {
          var revised := ticket.(title := title, description := description,
                                 categoryId := category, priority := p.value);
          tickets := tickets[id := revised];
          o := TicketOk(revised);
        }
    }

    /** `assignTicket`, as written: it reports success for a stored ticket
        but sets `assignedTo`, which is not an attribute of the model (the
        column is `assignee`). `save()` writes declared attributes only, so
        no stored field changes: the method has no `modifies` clause. */
    method AssignTicket(id: Uuid, assignedTo: string, storageFails: bool) returns (o: Outcome)
      requires assignedTo != ""
      ensures storageFails ==> o == ServerError
      ensures !storageFails && id in tickets ==>
                o == TicketAssigned && o.Message() == Some("Ticket assigned successfully")
      ensures !storageFails && id !in tickets ==>
                o == TicketNotFound && o.Message() == Some("Ticket not found")
    {
      match FindByPk(tickets, id, storageFails)
      case Fault => o := ServerError;
      case Missing => o := TicketNotFound;
      case Found(_) => o := TicketAssigned;
    }

    /** `closeTicket`: sets status Closed whatever it was before, and
        changes nothing else. */
    method CloseTicket(id: Uuid, storageFails: bool) returns (o: Outcome)
      requires Valid()
      modifies this`tickets
      ensures Valid()
      ensures storageFails ==> o == ServerError && tickets == old(tickets)
      ensures !storageFails && id !in old(tickets) ==> o == TicketNotFound && tickets == old(tickets)
      ensures !storageFails && id in old(tickets) ==>
                && o == TicketClosed && o.Message() == Some("Ticket closed successfully")
                && tickets == old(tickets)[id := old(tickets)[id].(status := Closed)]
      ensures ReferencesResolve(old(tickets), categories) ==> ReferencesResolve(tickets, categories)
      ensures NoTicketInProgress(old(tickets)) ==> NoTicketInProgress(tickets)
    {
      match FindByPk(tickets, id, storageFails)
      case Fault => o := ServerError;
      case Missing => o := TicketNotFound;
      case Found(ticket) =>
        tickets := tickets[id := ticket.(status := Closed)];
        o := TicketClosed;
    }

    // ---------------------------------------------------------------
    // Category handlers
    // ---------------------------------------------------------------

    /** `listAllCategories`: every stored category once, and nothing else. */
    method ListAllCategories(storageFails: bool) returns (o: Outcome)
      requires Valid()
      ensures storageFails ==> o == ServerError
      ensures !storageFails ==> o.CategoryList? && |o.categoryRows| == |categories|
      ensures !storageFails ==> forall id :: id in categories ==> categories[id] in o.categoryRows
      ensures !storageFails ==> forall c :: c in o.categoryRows ==> c.id in categories && categories[c.id] == c
    {
      if storageFails {
        return ServerError;
      }
      var rows, _ := FindAll(categories);
      o := CategoryList(rows);
    }

    /** `getCategoryById`: the stored category, or a 404 'Category not found'. */
    method GetCategoryById(id: Uuid, storageFails: bool) returns (o: Outcome)
      ensures storageFails ==> o == ServerError
      ensures !storageFails && id in categories ==> o == CategoryOk(categories[id])
      ensures !storageFails && id !in categories ==>
                && o == NotFound404 && o.StatusCode() == 404
                && o.Message() == Some("Category not found")
    {
      match FindByPk(categories, id, storageFails)
      case Fault => o := ServerError;
      case Missing => o := NotFound404;
      case Found(category) => o := CategoryOk(category);
    }

    /** `createCategory`: one new row under a fresh id with the given name
        and description; a taken id makes the insert throw. */
    method CreateCategory(name: string, description: Option<string>, newId: Uuid, storageFails: bool)
      returns (o: Outcome)
      requires Valid()
      requires name != ""
      modifies this`categories
      ensures Valid()
      ensures storageFails || newId in old(categories) ==>
                o == ServerError && categories == old(categories)
      ensures !storageFails && newId !in old(categories) ==>
                var c := Category(newId, name, description);
                o == CategoryCreated(c) && categories == old(categories)[newId := c]
    {
      if storageFails || newId in categories {
        return ServerError;
      }
      var c := Category(newId, name, description);
      categories := categories[newId := c];
      o := CategoryCreated(c);
    }

    /** `updateCategory`: renames a stored category; its id and description
        and every other category stay as they were. */
    method UpdateCategory(id: Uuid, name: string, storageFails: bool) returns (o: Outcome)
      requires Valid()
      requires name != ""
      modifies this`categories
      ensures Valid()
      ensures storageFails ==> o == ServerError && categories == old(categories)
      ensures !storageFails && id !in old(categories) ==>
                o == NotFound404 && categories == old(categories)
      ensures !storageFails && id in old(categories) ==>
                && id in categories
                && categories == old(categories)[id := categories[id]]
                && o == CategoryOk(categories[id])
                && categories[id].name == name
                && categories[id].id == old(categories)[id].id
                && categories[id].description == old(categories)[id].description
    {
      match FindByPk(categories, id, storageFails)
      case Fault => o := ServerError;
      case Missing => o := NotFound404;
      case Found(category) =>
        var renamed := category.(name := name);
        categories := categories[id := renamed];
        o := CategoryOk(renamed);
    }

    /** `deleteCategory`: removes exactly that row. The ticket table is not
        consulted or changed, so tickets filed under the category keep a
        foreign key that no longer resolves. */
    method DeleteCategory(id: Uuid, storageFails: bool) returns (o: Outcome)
      requires Valid()
      modifies this`categories
      ensures Valid()
      ensures tickets == old(tickets)
      ensures storageFails ==> o == ServerError && categories == old(categories)
      ensures !storageFails && id !in old(categories) ==>
                o == NotFound404 && categories == old(categories)
      ensures !storageFails && id in old(categories) ==>
                && o == CategoryDeleted && o.Message() == Some("Category deleted successfully")
                && categories == old(categories) - {id}
                && forall tid :: tid in TicketsOf(id, tickets) ==> CategoryOf(tickets[tid], categories) == None
    {
      match FindByPk(categories, id, storageFails)
      case Fault => o := ServerError;
      case Missing => o := NotFound404;
      case Found(_) =>
        categories := categories - {id};
        o := CategoryDeleted;
    }
  }
}
