# Support desk: tickets and categories

A model of the domain core of a small support-ticket desk. Tickets are filed
under categories, carry a priority (`High`, `Medium`, `Low`), a status
(`Open`, `In Progress`, `Closed`, default `Open`) and an optional integer
assignee. Two controllers serve them over HTTP: one for tickets (list, get,
create, update, assign, close) and one for categories (list, get, create,
update, delete). Each handler loads a row, checks it, changes it and saves
it.

The model holds the two tables as maps from primary key to record in one
class, `Controllers.Desk`. Each handler is a method that returns an
`Outcome`: one constructor per response the handler can send, with its HTTP
status code (`StatusCode`) and message text (`Message`).

- `storage.dfy` (`Storage`): ids, `Option`, the `findByPk` lookup with its
  three results (found, missing, thrown), and `findAll` as a loop that reads
  each row once.
- `ticket_model.dfy` (`TicketModel`): the `Ticket` record, the `Priority` and
  `Status` enums, the stored names of the priorities, the status default,
  the range of the `assignee` column, the primary-key invariant of the
  table, and the fact that no ticket is `In Progress`. The NOT NULL fields (`title`,
  `description`, `categoryId`, `priority`, `status`) are plain fields. The
  nullable INTEGER `assignee` is an `Option<int>`.
- `category_model.dfy` (`CategoryModel`): the `Category` record. `name` is a
  plain field and `description` is an `Option<string>`.
- `associations.dfy` (`Associations`): the belongs-to and has-many views of
  the `categoryId` foreign key, and what removing a category does to them.
- `desk.dfy` (`Controllers`): the `Outcome` datatype and the `Desk` class.
  Its invariant `Valid` says only that each row is stored under its own id.
  No category is required to exist for a stored ticket, because deleting a
  category does not look at tickets.
- `scenarios.dfy` (`Scenarios`): request sequences proved from the handlers'
  contracts: close twice, create then read back, delete a referenced
  category, and a whole ticket's life.

Things outside the core become parameters of the handler:

- `storageFails` says that a storage call in the handler's `try` block throws.
  The handler then answers 500 and writes nothing.
- `lookupFails` says that the lookup inside `validateCategory` throws. That
  check fails closed: a thrown lookup counts as "no such category".
- `newId` is the UUID the ORM draws for a new row. An id that is already
  taken violates the primary key, so the insert throws and the handler
  answers 500.

The `check(...).not().isEmpty()` rules on the routes become `requires`
clauses: on ticket create and update (`src/routes/ticket.js:36-39`,
`:57-60`), on assign (`src/routes/ticket.js:75`), and on category create and
update (`src/routes/category.js:35`, `:50`). A priority arrives as request
text. `ParsePriority` is the ENUM column's acceptance test. Text outside the
enum makes the insert or `save()` throw, which gives 500. In the same way an
assignee outside the signed 32-bit range of the INTEGER column
(`AssigneeFits`) makes the insert throw.

The status state machine has no way into `In Progress`: creation writes
`Open`, close writes `Closed`, and update and assign leave `status` alone.
Every ticket writer keeps `NoTicketInProgress`, so a desk that starts
empty never holds an `In Progress` ticket.

## Behaviour of the code worth knowing

These points are how the handlers behave as written, and the model keeps them:

- **Assigning a ticket changes nothing that is stored.** The handler writes
  `ticket.assignedTo` (`src/controllers/ticket/index.js:147`). The declared
  attribute is `assignee` (`src/models/ticket.js:46`). `save()` persists
  declared attributes only. So `Desk.AssignTicket` reports success for a
  stored ticket, has no `modifies` clause, and leaves every field as it was.
  `Scenarios.BillingScenario` shows a ticket that is assigned to "agent-7"
  and then read back with no assignee.
- A missing ticket is answered with status 200 and "Ticket not found", not
  404. A ticket create or update with an unknown category gets status 200
  and "Category not found". The category handlers answer a missing category
  with 404.
- The create handlers do not reject an empty name or title themselves. Only
  the route rules do, so this is a precondition and not an error outcome of
  the handler.
- `findAll` is called without an ordering, so the listings promise every row
  exactly once in an unspecified order, not insertion order.

## Model

| member | source | states |
|---|---|---|
| `TicketModel.ParsePriority` | src/models/ticket.js:37-40 | only the three names High, Medium, Low are accepted, each as its own value; any other text is refused |
| `TicketModel.PriorityRoundTrip` | src/models/ticket.js:37-40 | every priority's stored name is read back as that priority |
| `Associations.AssociationsAgree` | src/models/category.js:6-9 | a ticket is among a category's tickets (has-many) exactly when its own `categoryId` resolves to that category (belongs-to) |
| `Associations.RemovalLeavesDangling` | src/models/ticket.js:6-9 | removing a category that has tickets leaves each of them with a foreign key that names no category, so references no longer all resolve |
| `Storage.FindAll` | src/controllers/category/index.js:11 | the rows read are exactly the table's rows, each read under a distinct key, one row per key; the same call serves src/controllers/ticket/index.js:11 |
| `Controllers.Desk.ValidateCategory` | src/controllers/ticket/index.js:43-53 | true exactly when the lookup does not throw and the category is stored; a thrown lookup gives false (fails closed) |
| `Controllers.Desk.ListAllTickets` | src/controllers/ticket/index.js:9-16 | 500 on a storage fault; otherwise every stored ticket appears, only stored tickets appear, and the list has as many entries as the table |
| `Controllers.Desk.GetTicketById` | src/controllers/ticket/index.js:24-36 | the stored ticket when the id is present; otherwise "Ticket not found" with status 200, not 404; 500 on a fault |
| `Controllers.Desk.CreateTicket` | src/controllers/ticket/index.js:62-90 | an unknown category (or a thrown check) gives "Category not found" and no write; otherwise exactly one ticket is added under the new id with status Open and the supplied title, description, category, priority and assignee, all other tickets unchanged; a fault, a taken id, an unknown priority or an assignee outside the INTEGER range gives 500 and no write; no ticket becomes In Progress |
| `Controllers.Desk.UpdateTicket` | src/controllers/ticket/index.js:100-131 | the category is checked before the ticket is looked up, so an invalid category gives "Category not found" even for a missing ticket; every failure leaves the table unchanged; success overwrites exactly title, description, categoryId and priority, keeping id, status, assignee and all other tickets; no ticket becomes In Progress |
| `Controllers.Desk.AssignTicket` | src/controllers/ticket/index.js:141-156 | a stored id gives "Ticket assigned successfully", a missing one "Ticket not found", a fault 500; no stored field changes in any case (no `modifies`) |
| `Controllers.Desk.CloseTicket` | src/controllers/ticket/index.js:166-180 | a stored ticket gets status Closed whatever its status was, with every other field and every other ticket unchanged; a missing id gives "Ticket not found" and no change; no ticket becomes In Progress |
| `Controllers.Desk.ListAllCategories` | src/controllers/category/index.js:9-16 | 500 on a storage fault; otherwise every stored category appears, only stored categories appear, and the list has as many entries as the table |
| `Controllers.Desk.GetCategoryById` | src/controllers/category/index.js:24-36 | the stored category exactly when the id is present; otherwise the 404 "Category not found" |
| `Controllers.Desk.CreateCategory` | src/controllers/category/index.js:45-62 | exactly one category is added under the new id with the given name and description, all others unchanged; a fault or a taken id gives 500 and no write |
| `Controllers.Desk.UpdateCategory` | src/controllers/category/index.js:72-92 | a stored category gets the new name, keeping its id and description, with all other categories unchanged; a missing id gives 404 and no change |
| `Controllers.Desk.DeleteCategory` | src/controllers/category/index.js:102-115 | a stored category is removed and nothing else; the ticket table is untouched, so tickets filed under it now resolve to no category; a missing id gives 404 and no change |
| `Scenarios.CloseTwice` | src/controllers/ticket/index.js:169-176 | closing the same ticket twice answers "closed" both times and leaves the same table as closing it once |
| `Scenarios.CreateThenGet` | src/controllers/ticket/index.js:77-85 | a ticket read back after creation (with a priority and assignee the columns accept) carries the new id, every field the caller supplied, and status Open |
| `Scenarios.DeleteReferencedCategory` | src/controllers/category/index.js:105-108 | deleting a category a ticket is filed under succeeds and leaves that ticket pointing at the removed category |
| `Scenarios.BillingScenario` | src/controllers/ticket/index.js:62-180 | create category, create ticket, assign, close, read back: the ticket is Closed, with its original fields and no assignee |

## Left out

- HTTP routing and the request validation middleware. The `400 Bad request` branches are left out; the route rules appear as preconditions.
- The `createdAt` and `updatedAt` timestamps, which the ORM sets from the clock.
- UUIDv4 generation. The new id is a parameter, and a collision is modelled as the primary-key violation it causes.
- Which storage call inside a handler threw. One flag per handler stands for any of them; every such fault gives 500 with nothing written.
- Type coercion of request values. `assignee` is taken as an integer or absent, and only its range is checked. A `category` that is not UUID text makes the lookup throw, which `lookupFails` covers.
- Column length limits of the STRING columns (`title`, category `name` and `description`). An over-long value would make the write throw; the model accepts it.
- Any database-level ON DELETE behaviour of the foreign key. The controller does not rely on one, and the model keeps tickets untouched.
- Interleaving of concurrent requests. Each handler is one atomic step.
- JSON serialisation of the responses and the `console.log` calls.
- `Controllers.Desk.ListAllTickets`, `Controllers.Desk.ListAllCategories`: the row order of `findAll` is not modelled, because the source requests none.
