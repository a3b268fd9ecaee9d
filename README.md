# Leave management: a Dafny model

This project models the leave-management web application in `app.py`. Employees
file leave requests. Managers approve or reject the requests of their direct
reports. Administrators see every employee and every request.

Without the web framework, the application is a small state machine over two
tables:

- the employee table: id, unique name, password hash, free-text rank, and an
  optional manager id;
- the leave-request table: id, employee id, start and end date, reason, status.

Each handler is a guarded operation on those tables. It takes the current actor
as input and answers with a redirect, a 403, a 404, or a form shown again.

Modules:

- `LeaveRecords` (`records.dfy`): the two row types, the answers handlers give,
  the table constraints (`WellFormed`), lookup by primary key, and the id a new
  row receives.
- `RequestOrder` (`ordering.dfy`): the filter and the `order_by(start_date)` of
  the listing queries.
- `Routing` (`routing.dfy`): the `/` redirect by rank and the login check.
- `Listings` (`listings.dfy`): `my_requests`, `manager_portal`, `admin_portal`.
- `Store` (`store.dfy`): the decision policy `Authorize` and the class
  `LeaveStore`. The class holds both tables as sequence fields. Its methods
  `ApplyLeave`, `Approve` and `Reject` change the request table in place.
- `SeedScenario` (`scenario.dfy`): a walk through the application from the
  data `initialize_db` seeds.

Modelling choices:

- A rank is a `string`, because the rank column is free text. The handlers
  compare it with `"Admin"` and `"Manager"`, or test it against the list
  `["Employee", "Manager", "Admin"]`.
- A status is one of `Pending`, `Approved`, `Rejected`. These are the only
  values the code writes.
- A date is an integer day number. Only the order of dates matters to the code.
  The scenario writes dates as yyyymmdd numbers, which keeps that order.
- Checking a password against its stored hash is done by a one-way hashing
  library. Here it is the parameter `verifies(hash, password)` of `Login`.
- A new request's id is one more than the largest id in use. This is how
  SQLite assigns an integer primary key.
- Every handler except `home`, `login_page` and `initialize_db` runs behind
  `@login_required`, so each of them takes an authenticated `actor: Employee`.
  `home` takes an optional actor, and `Login` takes no actor. `ApplyLeave` also requires the actor to be a
  row of the employee table, because `current_user` is loaded from that table
  (app.py:23-25). This keeps the rule "every request belongs to an existing
  employee" true.
- `approve_request` reads `req.employee.manager_id`. The model states this as
  `ManagedBy`: some employee row with the request's employee id has the actor
  as manager. `ManagedByOwner` proves that, in a well-formed table, this is the
  `managerId` of the one row the request points to.
- The code does not check a request's prior status before a decision, so an
  Approved request can later be Rejected and the reverse.
  `AuthorizeIgnoresStatus` proves this.
- The rank column is free text. Every rank other than Admin and Manager is
  sent to the employee dashboard.

## Model

| member | source | states |
|---|---|---|
| `LeaveRecords.IsStaffRank` | app.py:92 | A rank passes the staff test exactly when it is `"Employee"`, `"Manager"` or `"Admin"`. |
| `LeaveRecords.ManagedBy` | app.py:154 | The test `req.employee.manager_id == current_user.id`: some employee row with the request's employee id has the actor as manager. A request with a manager of record therefore belongs to an existing employee. |
| `LeaveRecords.WellFormed` | app.py:28-39 | The schema's constraints: unique employee ids and names, unique request ids, and every request belongs to an existing employee. That last one is a declared foreign key that SQLite does not enforce, since its foreign-key checks are off by default. It holds because `apply_leave` writes only `current_user.id`, the id of an existing employee row. In a table that meets these constraints, the lookup by primary key finds every row at its own position. |
| `LeaveRecords.FindRequest` | app.py:153 | Lookup by primary key. It returns the position of the first row carrying the id. It returns None exactly when no row carries the id. |
| `LeaveRecords.FindRequestExact` | app.py:153 | When ids are unique, the lookup returns the one row carrying the id. |
| `LeaveRecords.ManagedByOwner` | app.py:154 | In a well-formed table, "the request's employee has this manager" holds exactly when the `managerId` of the request's employee row is that manager. |
| `LeaveRecords.MaxRequestId` | app.py:38 | Returns the largest id in the table, 0 when the table is empty. Every id is at most this value, and some row has it when the table is non-empty. |
| `LeaveRecords.NextRequestId` | app.py:115-116 | The id a new row receives is larger than every id in use, so it is distinct from all of them. |
| `RequestOrder.Insert` | app.py:143 | Inserting into a sorted list keeps it sorted. The result has the same rows plus the new one. |
| `RequestOrder.OrderBy` | app.py:143 | Ordering by start date, ascending or descending, gives a sorted permutation of its input. |
| `RequestOrder.Select` | app.py:140-142 | The filter keeps each row that satisfies the condition, as many times as the row occurs in the input, and drops every other row. |
| `Routing.DashboardFor` | app.py:74-79 | Admin goes to the admin dashboard and Manager to the manager dashboard. Every other rank string, unknown ones included, goes to the employee dashboard. |
| `Routing.Home` | app.py:56-65 | An anonymous visitor goes to the login page, and it is the only one who does. An authenticated actor is routed by rank: Admin, Manager, or anything else. |
| `Routing.FindByName` | app.py:71 | Returns an employee row with that name. It returns None exactly when no row has that name. |
| `Routing.FindByNameExact` | app.py:71 | When names are unique, the lookup by name returns the one row with that name. |
| `Routing.Login` | app.py:67-81 | An unsubmitted form is shown again. A submission never shows the bare form. A success names an existing employee with the submitted name and a password that verifies, and lands on that employee's rank dashboard. Every failure is the single generic rejection. |
| `Routing.LoginSucceedsIff` | app.py:71-73 | When names are unique, login succeeds exactly when some employee has that name and the password verifies against that employee's hash. |
| `Routing.NoUsernameEnumeration` | app.py:72-80 | An unknown name and a known name with a wrong password give the same answer: the generic rejection. |
| `Routing.LoginLandsWhereHomeSends` | app.py:58-79 | After a successful login, the redirect is the one `/` gives the new session. |
| `Listings.ManagedIds` | app.py:137-138 | An id is in the list exactly when some employee with that id has the actor as manager. |
| `Listings.MyRequestsPage` | app.py:122-129 | A rank outside the three staff ranks gets 403, and no other rank does. Otherwise the page shows exactly the actor's own requests, each as often as it is in the table, latest start date first. |
| `Listings.ManagerPortalPage` | app.py:131-145 | Any rank other than Manager gets 403. Otherwise the page shows exactly the Pending requests whose employee has the actor as manager, earliest start date first. |
| `Listings.AdminPortalPage` | app.py:177-186 | Any rank other than Admin gets 403. Otherwise the page shows the employee table as stored and a permutation of the whole request table, latest start date first. |
| `Listings.ManagerQueueWithinAdminView` | app.py:140-184 | Every row on a manager's pending list is Pending and also appears on the admin's list of all requests. |
| `Listings.DecidedRequestLeavesPendingList` | app.py:157 | Once a request is written back as Approved or Rejected, it is off every manager's pending list. It is still on its owner's own list and on the admin's list. |
| `Store.Authorize` | app.py:150-155 | The checks run in the source's order. A non-Manager is refused, whether or not the id exists. A Manager gets "missing" exactly when no row has the id. A grant names the row with that id, and that row's employee has the actor as manager. A refusal of a Manager means such a row exists but the actor is not its manager. |
| `Store.AuthorizeGrantsManagerOfRecord` | app.py:153-154 | When ids are unique and the row with the id exists, a Manager is granted that very row exactly when the Manager is its employee's manager, and is refused otherwise. |
| `Store.FindRequestIgnoresStatus` | app.py:153 | Rewriting a row's status does not change where the lookup by id finds a request. |
| `Store.AuthorizeIgnoresStatus` | app.py:153-157 | Rewriting any request's status does not change the decision checks. A decided request can therefore be decided again. |
| `Store.StatusRewriteKeepsWellFormed` | app.py:157 | Writing a new status into one request keeps the table constraints. |
| `Store.LeaveStore.Valid` | app.py:34-39 | The store meets the table constraints. Every request's `employee` relationship then resolves to exactly one employee row, so `req.employee.manager_id` is always defined. |
| `Store.LeaveStore.ApplyLeave` | app.py:96-120 | A non-staff rank gets 403, an unsubmitted form is shown again, and `start > end` gets the validation message. Each of these leaves the table unchanged. Otherwise exactly one row is appended: fresh id, owner = actor, the given dates and reason, status Pending. The answer is a redirect to the actor's own list. The employee table is never touched, and the table constraints are kept. |
| `Store.LeaveStore.Approve` | app.py:147-160 | On a grant, only the chosen row's status changes, to Approved, whatever it was before. The answer is a redirect to the manager dashboard. A refusal gives 403 and a missing id gives 404, and both leave the table unchanged. |
| `Store.LeaveStore.Reject` | app.py:162-175 | The same as `Approve`, with the status Rejected. |
| `Store.SubmissionIsListed` | app.py:108-116 | A newly filed request appears on its owner's own list. It also appears on the pending list of the owner's manager. |
| `SeedScenario.SeedIsWellFormed` | app.py:193-215 | The seeded tables meet the table constraints. The next request id is 3. |
| `SeedScenario.JohnLandsOnEmployeeDashboard` | app.py:203-204 | With the seeded password, john_doe's login succeeds and lands on the employee dashboard. |
| `SeedScenario.SubmitAndReview` | app.py:212-213 | On the seeded store, jane_smith files a December request. The manager's pending list is then John's October request followed by Jane's. |
| `SeedScenario.ApproveAndReview` | app.py:157 | The manager approves John's request: the answer is a redirect. Only Jane's request is left on the pending list. John's own list shows his request as Approved. |
| `SeedScenario.Walkthrough` | app.py:188-217 | The whole run from the seeded database: login, submission, review, approval, review again. |

## Left out

- The web framework layer is not modelled: routing, templates, `flash` text,
  `redirect`/`url_for`. Answers are the datatypes `Outcome`, `View` and
  `LoginOutcome`.
- `@login_required` is not modelled. It redirects an anonymous visitor of any
  protected handler to the login page. The model's protected handlers take an
  authenticated actor. Only `home` and `login_page` see an anonymous visitor,
  and `Login` takes no actor.
- The database layer is not modelled: SQLAlchemy sessions, `commit`, lazy
  relationships, SQLite. The tables are in-memory sequences. A handler is one
  atomic step, so concurrent decisions on the same request (last write wins)
  are not modelled.
- Werkzeug's password hashing is not modelled. It is the uninterpreted
  parameter `verifies`, and `Hash` in the scenario is only a stand-in.
- WTForms field parsing and `DataRequired` (app.py:45-54) are not modelled. A
  form that passed validation is `Some(...)`; one that did not, or a GET, is
  `None`.
- `load_user`, `sign_out` and `employee_portal` (app.py:23-25, 83-94) are not
  modelled. The first two are session mechanics. The third only renders a page
  behind the same rank check as `my_requests`.
- `initialize_db` (app.py:188-217) is not modelled as an operation, because it
  drops and recreates the schema. Its seed data is the scenario's initial
  state.
- Ids are unbounded natural numbers, while SQLite's INTEGER column is 64 bits
  wide. Two consequences are not modelled. First, an id of 2^63 or more in
  `/approve/<id>` or `/reject/<id>` is outside the range the database
  driver can bind, so the lookup ends in an error, not in a 404. The model
  answers 404. Second, once
  the largest rowid is 2^63-1, SQLite stops using "largest plus one", but
  `NextRequestId` always returns largest plus one.
- The status column is a free `String(20)`. The model gives it only the three
  values the code writes.
- Rows with equal start dates may come back in any order. The listings are
  stated only as sorted and as a permutation of the selected rows. Insertion
  sort is one ordering that meets this statement.
- `Store.LeaveStore.Approve`, `Store.LeaveStore.Reject`: if the request's
  employee row were missing, `req.employee.manager_id` would raise an error.
  The model does not reach that case: `Valid()` requires every request to
  belong to an existing employee, and every method keeps this.
