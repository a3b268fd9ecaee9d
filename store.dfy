/** The leave-request store and the handlers that write to it:
    `apply_leave`, `approve_request` and `reject_request`. */
module Store {
  import opened LeaveRecords
  import opened Listings
  import opened RequestOrder

  /** A submitted leave form that passed field validation. */
  datatype LeaveForm = LeaveForm(startDate: Date, endDate: Date, reason: string)

  /** The result of the three checks a decision handler makes in order. */
  datatype Authorization = Refused | Missing | Granted(index: nat)

  /** The checks of `approve_request` and `reject_request`, in their order:
      the actor must be a Manager (else 403), the request must exist (else
      404), and its employee's manager of record must be the actor (else 403).
      The request's current status is not consulted. */
  function Authorize(actor: Employee, employees: seq<Employee>, requests: seq<LeaveRequest>, requestId: nat)
    : (a: Authorization)
    ensures actor.rank != "Manager" ==> a == Refused
    ensures a == Missing <==>
      actor.rank == "Manager" && forall i :: 0 <= i < |requests| ==> requests[i].id != requestId
    ensures a == Refused && actor.rank == "Manager" ==>
      exists i :: 0 <= i < |requests| && requests[i].id == requestId && !ManagedBy(employees, requests[i], actor.id)
    ensures a.Granted? ==>
      && actor.rank == "Manager"
      && a.index < |requests|
      && requests[a.index].id == requestId
      && ManagedBy(employees, requests[a.index], actor.id)
  {
    if actor.rank != "Manager" then Refused
    else
      match FindRequest(requests, requestId)
      case None => Missing
      case Some(k) => if ManagedBy(employees, requests[k], actor.id) then Granted(k) else Refused
  }

  /** In a well-formed table a Manager is granted a decision on a request
      exactly when that request exists and the Manager is its employee's
      manager of record. */
  lemma AuthorizeGrantsManagerOfRecord(
    actor: Employee, employees: seq<Employee>, requests: seq<LeaveRequest>, requestId: nat, i: nat)
    requires UniqueRequestIds(requests)
    requires actor.rank == "Manager"
    requires i < |requests| && requests[i].id == requestId
    ensures Authorize(actor, employees, requests, requestId) ==
      if ManagedBy(employees, requests[i], actor.id) then Granted(i) else Refused
  {
  }

  /** Rewriting the status of any request does not change the answer of the
      checks, so a request that is already Approved or Rejected can be decided
      again. */
  lemma {:induction false} AuthorizeIgnoresStatus(
    actor: Employee, employees: seq<Employee>, requests: seq<LeaveRequest>, requestId: nat, k: nat, s: Status)
    requires k < |requests|
    ensures Authorize(actor, employees, requests[k := requests[k].(status := s)], requestId) ==
      Authorize(actor, employees, requests, requestId)
  {
    FindRequestIgnoresStatus(requests, requestId, k, s);
    var after := requests[k := requests[k].(status := s)];
    match FindRequest(requests, requestId)
    case None =>
    case Some(j) =>
      assert after[j].employeeId == requests[j].employeeId;
      assert ManagedBy(employees, after[j], actor.id) == ManagedBy(employees, requests[j], actor.id);
  }

  lemma {:induction false} FindRequestIgnoresStatus(requests: seq<LeaveRequest>, id: nat, k: nat, s: Status)
    requires k < |requests|
    ensures FindRequest(requests[k := requests[k].(status := s)], id) == FindRequest(requests, id)
  {
    var after := requests[k := requests[k].(status := s)];
    if k > 0 && requests[0].id != id {
      assert after[1..] == requests[1..][k - 1 := requests[k].(status := s)];
      FindRequestIgnoresStatus(requests[1..], id, k - 1, s);
    } else if requests[0].id != id {
      assert after[1..] == requests[1..];
    }
  }

  /** Rewriting one request's status keeps the table constraints. */
  lemma StatusRewriteKeepsWellFormed(employees: seq<Employee>, requests: seq<LeaveRequest>, k: nat, s: Status)
    requires WellFormed(employees, requests) && k < |requests|
    ensures WellFormed(employees, requests[k := requests[k].(status := s)])
  {
  }

  /** The database: the employee table and the leave-request table. */
  class LeaveStore {
    var employees: seq<Employee>
    var requests: seq<LeaveRequest>

    /** The table constraints hold. Then every request's `employee`
        relationship resolves to exactly one employee row, so
        `req.employee.manager_id` is always defined. */
    ghost predicate Valid()
      reads this
      ensures Valid() ==> forall r :: r in requests ==> SingleOwnerRow(employees, r.employeeId)
    {
      WellFormed(employees, requests)
    }

    constructor (employees0: seq<Employee>, requests0: seq<LeaveRequest>)
      requires WellFormed(employees0, requests0)
      ensures Valid()
      ensures employees == employees0 && requests == requests0
    {
      employees := employees0;
      requests := requests0;
    }

    /** `/apply_leave`. A rank outside the staff ranks gets 403; an unsubmitted
        form is shown again; a start date after the end date gets the
        validation message; each of these leaves the store as it was.
        Otherwise one Pending request owned by the actor is appended and the
        actor is sent to their own list. */
    method ApplyLeave(actor: Employee, form: Option<LeaveForm>) returns (outcome: Outcome)
      requires Valid()
      requires actor in employees
      modifies this`requests
      ensures Valid()
      ensures !IsStaffRank(actor.rank) ==> outcome == Forbidden && requests == old(requests)
      ensures IsStaffRank(actor.rank) && form.None? ==> outcome == FormShown && requests == old(requests)
      ensures IsStaffRank(actor.rank) && form.Some? && form.value.startDate > form.value.endDate ==>
        outcome == ValidationFailed && requests == old(requests)
      ensures IsStaffRank(actor.rank) && form.Some? && form.value.startDate <= form.value.endDate ==>
        && outcome == Redirect(MyRequests)
        && requests == old(requests) + [LeaveRequest(NextRequestId(old(requests)), actor.id,
             form.value.startDate, form.value.endDate, form.value.reason, Pending)]
    {
      if !IsStaffRank(actor.rank) {
        return Forbidden;
      }
      if form.None? {
        return FormShown;
      }
      var f := form.value;
      if f.startDate > f.endDate {
        return ValidationFailed;
      }
      var request := LeaveRequest(NextRequestId(requests), actor.id, f.startDate, f.endDate, f.reason, Pending);
      requests := requests + [request];
      outcome := Redirect(MyRequests);
    }

    /** `/approve/<id>`: on a granted decision the request's status becomes
        Approved and nothing else changes; a refusal is 403, an unknown id
        404, and both leave the store as it was. */
    method Approve(actor: Employee, requestId: nat) returns (outcome: Outcome)
      requires Valid()
      modifies this`requests
      ensures Valid()
      ensures match Authorize(actor, employees, old(requests), requestId)
        case Refused => outcome == Forbidden && requests == old(requests)
        case Missing => outcome == NotFound && requests == old(requests)
        case Granted(k) =>
          && outcome == Redirect(ManagerPortal)
          && requests == old(requests)[k := old(requests)[k].(status := Approved)]
    {
      match Authorize(actor, employees, requests, requestId)
      case Refused =>
        outcome := Forbidden;
      case Missing =>
        outcome := NotFound;
      case Granted(k) =>
        StatusRewriteKeepsWellFormed(employees, requests, k, Approved);
        requests := requests[k := requests[k].(status := Approved)];
        outcome := Redirect(ManagerPortal);
    }

    /** `/reject/<id>`: as Approve, with the status Rejected. */
    method Reject(actor: Employee, requestId: nat) returns (outcome: Outcome)
      requires Valid()
      modifies this`requests
      ensures Valid()
      ensures match Authorize(actor, employees, old(requests), requestId)
        case Refused => outcome == Forbidden && requests == old(requests)
        case Missing => outcome == NotFound && requests == old(requests)
        case Granted(k) =>
          && outcome == Redirect(ManagerPortal)
          && requests == old(requests)[k := old(requests)[k].(status := Rejected)]
    {
      match Authorize(actor, employees, requests, requestId)
      case Refused =>
        outcome := Forbidden;
      case Missing =>
        outcome := NotFound;
      case Granted(k) =>
        StatusRewriteKeepsWellFormed(employees, requests, k, Rejected);
        requests := requests[k := requests[k].(status := Rejected)];
        outcome := Redirect(ManagerPortal);
    }
  }

  /** A successful submission shows up in the owner's own list and, when the
      owner has a manager of record, in that manager's pending list. */
  lemma SubmissionIsListed(
    employees: seq<Employee>, requests: seq<LeaveRequest>, actor: Employee, form: LeaveForm, manager: Employee)
    requires actor in employees && IsStaffRank(actor.rank)
    requires form.startDate <= form.endDate
    requires manager.rank == "Manager" && actor.managerId == Some(manager.id)
    ensures var r := LeaveRequest(NextRequestId(requests), actor.id, form.startDate, form.endDate, form.reason, Pending);
      && r in MyRequestsPage(actor, requests + [r]).content
      && r in ManagerPortalPage(manager, employees, requests + [r]).content
  {
    var r := LeaveRequest(NextRequestId(requests), actor.id, form.startDate, form.endDate, form.reason, Pending);
    assert r in requests + [r];
    assert ManagedBy(employees, r, manager.id);
  }
}
