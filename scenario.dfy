/** A walk through the application from the state `initialize_db` seeds.
    Dates are written as yyyymmdd numbers, which keeps their order. The
    hashing primitive is stood in for by a function that accepts exactly the
    password the hash was made from. */
module SeedScenario {
  import opened LeaveRecords
  import opened RequestOrder
  import opened Routing
  import opened Listings
  import opened Store

  function Hash(password: string): string {
    "pbkdf2:" + password
  }

  const Admin := Employee(1, "admin", Hash("admin_password"), "Admin", None)
  const Boss := Employee(2, "manager", Hash("manager_password"), "Manager", None)
  const John := Employee(3, "john_doe", Hash("employee1_password"), "Employee", Some(2))
  const Jane := Employee(4, "jane_smith", Hash("employee2_password"), "Employee", Some(2))

  const FamilyVacation := LeaveRequest(1, 3, 20251020, 20251025, "Family vacation", Pending)
  const MedicalAppointment := LeaveRequest(2, 4, 20250905, 20250907, "Medical appointment", Approved)

  const SeedEmployees := [Admin, Boss, John, Jane]
  const SeedRequests := [FamilyVacation, MedicalAppointment]

  /** Jane asks for leave in December, after John's pending request. */
  const JanesForm := LeaveForm(20251201, 20251203, "Conference")
  const JanesRequest := LeaveRequest(3, 4, 20251201, 20251203, "Conference", Pending)

  /** A sorted two-element permutation is fixed by its start dates. */
  lemma TwoSorted(s: seq<LeaveRequest>, a: LeaveRequest, b: LeaveRequest)
    requires SortedBy(s, Ascending) && multiset(s) == multiset{a, b}
    requires a.startDate < b.startDate
    ensures s == [a, b]
  {
  }

  /** A one-element permutation is that element. A sequence fact kept as
      its own step so that the scenario's proofs stay cheap. */
  lemma OneElement(s: seq<LeaveRequest>, a: LeaveRequest)
    requires multiset(s) == multiset{a}
    ensures s == [a]
  {
  }

  lemma JohnLandsOnEmployeeDashboard()
    ensures Login(SeedEmployees, Some(Credentials("john_doe", "employee1_password")),
      (hash: string, password: string) => hash == Hash(password)) == LoggedIn(John, EmployeePortal)
  {
  }

  /** The manager's pending list, when the table holds `a`, `m` and `b`
      in some order and `a` and `b` are pending and filed by the manager's
      reports and `m` is not pending. */
  lemma PendingOfThree(
    manager: Employee, employees: seq<Employee>, requests: seq<LeaveRequest>,
    a: LeaveRequest, m: LeaveRequest, b: LeaveRequest)
    requires manager.rank == "Manager" && multiset(requests) == multiset{a, m, b}
    requires a.status == Pending && ManagedBy(employees, a, manager.id)
    requires b.status == Pending && ManagedBy(employees, b, manager.id)
    requires m.status != Pending
    ensures var shown := ManagerPortalPage(manager, employees, requests).content;
      SortedBy(shown, Ascending) && multiset(shown) == multiset{a, b}
  {
  }

  /** With `m` decided, the pending list is `a` then `b`. */
  lemma PendingPair(
    manager: Employee, employees: seq<Employee>, requests: seq<LeaveRequest>,
    a: LeaveRequest, m: LeaveRequest, b: LeaveRequest)
    requires manager.rank == "Manager" && multiset(requests) == multiset{a, m, b}
    requires a.status == Pending && ManagedBy(employees, a, manager.id)
    requires b.status == Pending && ManagedBy(employees, b, manager.id)
    requires m.status != Pending && a.startDate < b.startDate
    ensures ManagerPortalPage(manager, employees, requests).content == [a, b]
  {
    var v := ManagerPortalPage(manager, employees, requests);
    PendingOfThree(manager, employees, requests, a, m, b);
    TwoSorted(v.content, a, b);
  }

  /** The pending list when only `b` of the three is pending. */
  lemma PendingLast(
    manager: Employee, employees: seq<Employee>, requests: seq<LeaveRequest>,
    a: LeaveRequest, m: LeaveRequest, b: LeaveRequest)
    requires manager.rank == "Manager" && multiset(requests) == multiset{a, m, b}
    requires a.status != Pending && m.status != Pending
    requires b.status == Pending && ManagedBy(employees, b, manager.id)
    ensures ManagerPortalPage(manager, employees, requests).content == [b]
  {
  }

  /** The own list of `owner` when only `a` of the three is theirs. */
  lemma OwnFirst(owner: Employee, requests: seq<LeaveRequest>, a: LeaveRequest, m: LeaveRequest, b: LeaveRequest)
    requires IsStaffRank(owner.rank) && multiset(requests) == multiset{a, m, b}
    requires a.employeeId == owner.id && m.employeeId != owner.id && b.employeeId != owner.id
    ensures MyRequestsPage(owner, requests).content == [a]
  {
    var v := MyRequestsPage(owner, requests);
    assert multiset(v.content) == multiset{a};
    OneElement(v.content, a);
  }

  /** A three-row table as a multiset. A sequence fact kept as its own step
      so that the scenario's proofs stay cheap. */
  lemma ThreeRows(requests: seq<LeaveRequest>, a: LeaveRequest, m: LeaveRequest, b: LeaveRequest)
    requires requests == [a, m, b]
    ensures multiset(requests) == multiset{a, m, b}
  {
  }

  /** The seeded tables meet the database's constraints. */
  lemma SeedIsWellFormed()
    ensures WellFormed(SeedEmployees, SeedRequests)
    ensures NextRequestId(SeedRequests) == 3
  {
  }

  /** Jane applies for leave in December on the seeded store; the manager's
      pending list then shows John's request first and Jane's second. */
  method SubmitAndReview(db: LeaveStore) returns (submitted: Outcome, queue: seq<LeaveRequest>)
    requires db.Valid() && db.employees == SeedEmployees && db.requests == SeedRequests
    modifies db`requests
    ensures db.Valid() && db.requests == [FamilyVacation, MedicalAppointment, JanesRequest]
    ensures submitted == Redirect(MyRequests)
    ensures queue == [FamilyVacation, JanesRequest]
  {
    SeedIsWellFormed();
    assert Jane in db.employees;
    submitted := db.ApplyLeave(Jane, Some(JanesForm));
    ThreeRows(db.requests, FamilyVacation, MedicalAppointment, JanesRequest);
    assert ManagedBy(db.employees, FamilyVacation, Boss.id) by { assert John in db.employees; }
    assert ManagedBy(db.employees, JanesRequest, Boss.id) by { assert Jane in db.employees; }
    PendingPair(Boss, db.employees, db.requests, FamilyVacation, MedicalAppointment, JanesRequest);
    queue := ManagerPortalPage(Boss, db.employees, db.requests).content;
  }

  /** The manager approves John's request: it leaves the pending list and
      stays on John's own list, now Approved. */
  method ApproveAndReview(db: LeaveStore) returns (decided: Outcome, queue: seq<LeaveRequest>, johnsList: seq<LeaveRequest>)
    requires db.Valid() && db.employees == SeedEmployees
    requires db.requests == [FamilyVacation, MedicalAppointment, JanesRequest]
    modifies db`requests
    ensures db.Valid() && db.requests == [FamilyVacation.(status := Approved), MedicalAppointment, JanesRequest]
    ensures decided == Redirect(ManagerPortal)
    ensures queue == [JanesRequest]
    ensures johnsList == [FamilyVacation.(status := Approved)]
  {
    assert ManagedBy(db.employees, FamilyVacation, Boss.id) by { assert John in db.employees; }
    AuthorizeGrantsManagerOfRecord(Boss, db.employees, db.requests, 1, 0);
    decided := db.Approve(Boss, 1);
    var approved := FamilyVacation.(status := Approved);
    ThreeRows(db.requests, approved, MedicalAppointment, JanesRequest);
    assert ManagedBy(db.employees, JanesRequest, Boss.id) by { assert Jane in db.employees; }
    PendingLast(Boss, db.employees, db.requests, approved, MedicalAppointment, JanesRequest);
    OwnFirst(John, db.requests, approved, MedicalAppointment, JanesRequest);
    queue := ManagerPortalPage(Boss, db.employees, db.requests).content;
    johnsList := MyRequestsPage(John, db.requests).content;
  }

  /** John logs in and lands on the employee dashboard; Jane applies; the
      manager sees both pending requests, John's first; the manager
      approves John's, which leaves the pending list and stays on John's
      own list as Approved. */
  method Walkthrough() returns (
    landing: Endpoint, submitted: Outcome, queueBefore: seq<LeaveRequest>,
    decided: Outcome, queueAfter: seq<LeaveRequest>, johnsList: seq<LeaveRequest>)
    ensures landing == EmployeePortal
    ensures submitted == Redirect(MyRequests)
    ensures queueBefore == [FamilyVacation, JanesRequest]
    ensures decided == Redirect(ManagerPortal)
    ensures queueAfter == [JanesRequest]
    ensures johnsList == [FamilyVacation.(status := Approved)]
  {
    var verifies := (hash: string, password: string) => hash == Hash(password);
    JohnLandsOnEmployeeDashboard();
    landing := Login(SeedEmployees, Some(Credentials("john_doe", "employee1_password")), verifies).landing;

    SeedIsWellFormed();
    var db := new LeaveStore(SeedEmployees, SeedRequests);
    submitted, queueBefore := SubmitAndReview(db);
    decided, queueAfter, johnsList := ApproveAndReview(db);
  }
}
