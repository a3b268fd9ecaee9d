/** The two tables of the leave-management application, the answers its
    handlers give, and the lookups every handler shares. */
module LeaveRecords {

  datatype Option<+T> = None | Some(value: T)

  /** A calendar date as a day number: a later date is a larger number. */
  type Date = int

  /** The status column. The handlers only ever write these three values. */
  datatype Status = Pending | Approved | Rejected

  /** A row of the employee table. The rank column is free text, so a rank
      is a string; `managerId` is the nullable self-reference. */
  datatype Employee = Employee(
    id: nat,
    name: string,
    passwordHash: string,
    rank: string,
    managerId: Option<nat>)

  /** A row of the leave-request table. */
  datatype LeaveRequest = LeaveRequest(
    id: nat,
    employeeId: nat,
    startDate: Date,
    endDate: Date,
    reason: string,
    status: Status)

  /** The handlers a redirect can point to. */
  datatype Endpoint = LoginPage | EmployeePortal | ManagerPortal | AdminPortal | MyRequests

  /** What a handler that may change the store answers: a redirect, a 403,
      a 404, the form shown again unfilled, or the form shown again with the
      date-range message. */
  datatype Outcome = Redirect(target: Endpoint) | Forbidden | NotFound | FormShown | ValidationFailed

  /** What a listing handler answers: a 403, or the content of its page. */
  datatype View<+T> = Denied | Shown(content: T)

  /** The ranks the self-service handlers admit. */
  const StaffRanks: seq<string> := ["Employee", "Manager", "Admin"]

  /** The rank test of `employee_portal`, `apply_leave` and `my_requests`. */
  predicate IsStaffRank(rank: string): (b: bool)
    ensures b <==> rank == "Employee" || rank == "Manager" || rank == "Admin"
  {
    rank in StaffRanks
  }

  /** Some row of the employee table has this id. */
  predicate HasEmployee(employees: seq<Employee>, id: nat) {
    exists e :: e in employees && e.id == id
  }

  /** Exactly one row of the employee table has this id. */
  predicate SingleOwnerRow(employees: seq<Employee>, id: nat) {
    exists e :: e in employees && e.id == id && forall e' :: e' in employees && e'.id == id ==> e' == e
  }

  /** The employee who filed `request` has `managerId` as manager of record. */
  predicate ManagedBy(employees: seq<Employee>, request: LeaveRequest, managerId: nat): (b: bool)
    ensures b ==> HasEmployee(employees, request.employeeId)
  {
    exists e :: e in employees && e.id == request.employeeId && e.managerId == Some(managerId)
  }

  /** The unique constraint on the employee name column. */
  predicate UniqueNames(employees: seq<Employee>) {
    forall i, j :: 0 <= i < j < |employees| ==> employees[i].name != employees[j].name
  }

  predicate UniqueRequestIds(requests: seq<LeaveRequest>) {
    forall i, j :: 0 <= i < j < |requests| ==> requests[i].id != requests[j].id
  }

  /** The database constraints the handlers rely on: primary keys and employee
      names are unique, and every request belongs to an existing employee.
      The last one is a declared foreign key that SQLite does not enforce
      (its foreign-key checks are off by default); it holds because
      `apply_leave` only ever writes the id of the logged-in employee's own
      row. In a table that meets them, the lookup by primary key finds every
      row at its own position. */
  predicate WellFormed(employees: seq<Employee>, requests: seq<LeaveRequest>): (b: bool)
    ensures b ==> forall i :: 0 <= i < |requests| ==> FindRequest(requests, requests[i].id) == Some(i)
  {
    var b :=
      && (forall i, j :: 0 <= i < j < |employees| ==> employees[i].id != employees[j].id)
      && UniqueNames(employees)
      && UniqueRequestIds(requests)
      && (forall r :: r in requests ==> HasEmployee(employees, r.employeeId));
    assert b ==> forall i :: 0 <= i < |requests| ==> FindRequest(requests, requests[i].id) == Some(i) by {
      if b {
        forall i | 0 <= i < |requests| {
          FindRequestExact(requests, requests[i].id, i);
        }
      }
    }
    b
  }

  /** In a well-formed table the manager of record of a request is the
      `managerId` of the one employee row the request points to. */
  lemma ManagedByOwner(
    employees: seq<Employee>, requests: seq<LeaveRequest>, r: LeaveRequest, owner: Employee, managerId: nat)
    requires WellFormed(employees, requests)
    requires owner in employees && owner.id == r.employeeId
    ensures ManagedBy(employees, r, managerId) <==> owner.managerId == Some(managerId)
  {
  }

  /** Lookup of a leave request by primary key: the position of the first row
      with that id, or None when there is none. */
  function FindRequest(requests: seq<LeaveRequest>, id: nat): (k: Option<nat>)
    ensures k.Some? ==> k.value < |requests| && requests[k.value].id == id
    ensures k.Some? ==> forall i :: 0 <= i < k.value ==> requests[i].id != id
    ensures k.None? <==> forall i :: 0 <= i < |requests| ==> requests[i].id != id
  {
    if requests == [] then None
    else if requests[0].id == id then Some(0)
    else
      match FindRequest(requests[1..], id)
      case None => None
      case Some(k) => Some(k + 1)
  }

  /** With unique ids, the lookup finds exactly the row that carries the id. */
  lemma FindRequestExact(requests: seq<LeaveRequest>, id: nat, i: nat)
    requires UniqueRequestIds(requests)
    requires i < |requests| && requests[i].id == id
    ensures FindRequest(requests, id) == Some(i)
  {
  }

  /** The largest request id in the table, 0 for an empty table. */
  function MaxRequestId(requests: seq<LeaveRequest>): (m: nat)
    ensures forall r :: r in requests ==> r.id <= m
    ensures requests != [] ==> exists r :: r in requests && r.id == m
  {
    if requests == [] then 0
    else
      var rest := MaxRequestId(requests[1..]);
      if requests[0].id >= rest then requests[0].id else rest
  }

  /** The id the database gives a new row: one more than the largest id in
      use, so it is distinct from every existing id. */
  function NextRequestId(requests: seq<LeaveRequest>): (id: nat)
    ensures forall r :: r in requests ==> r.id < id
  {
    MaxRequestId(requests) + 1
  }
}
