/** The three read-only listing handlers: `my_requests`, `manager_portal`
    and `admin_portal`. Each is a rank check followed by a filtered query
    ordered by start date. */
module Listings {
  import opened LeaveRecords
  import opened RequestOrder

  /** The ids of the employees whose manager of record is `managerId`
      (the list comprehension over `managed_employees`). */
  function ManagedIds(employees: seq<Employee>, managerId: nat): (ids: seq<nat>)
    ensures forall id :: id in ids <==>
      exists e :: e in employees && e.id == id && e.managerId == Some(managerId)
  {
    if employees == [] then []
    else
      assert employees == [employees[0]] + employees[1..];
      (if employees[0].managerId == Some(managerId) then [employees[0].id] else [])
        + ManagedIds(employees[1..], managerId)
  }

  /** `/my_requests`: 403 for a rank outside the staff ranks; otherwise the
      actor's own requests, latest start date first. */
  function MyRequestsPage(actor: Employee, requests: seq<LeaveRequest>): (v: View<seq<LeaveRequest>>)
    ensures v.Denied? <==> !IsStaffRank(actor.rank)
    ensures v.Shown? ==> SortedBy(v.content, Descending)
    ensures v.Shown? ==> forall x ::
      multiset(v.content)[x] == if x.employeeId == actor.id then multiset(requests)[x] else 0
    ensures v.Shown? ==> forall x :: x in v.content <==> x in requests && x.employeeId == actor.id
  {
    if !IsStaffRank(actor.rank) then Denied
    else
      var own := Select(requests, (x: LeaveRequest) => x.employeeId == actor.id);
      var r := OrderBy(own, Descending);
      assert forall x :: x in r <==> multiset(r)[x] > 0;
      Shown(r)
  }

  /** `/manager_dashboard`: 403 unless the actor's rank is Manager; otherwise
      the pending requests of the employees the actor manages, earliest start
      date first. */
  function ManagerPortalPage(actor: Employee, employees: seq<Employee>, requests: seq<LeaveRequest>)
    : (v: View<seq<LeaveRequest>>)
    ensures v.Denied? <==> actor.rank != "Manager"
    ensures v.Shown? ==> SortedBy(v.content, Ascending)
    ensures v.Shown? ==> forall x ::
      multiset(v.content)[x] ==
        if x.status == Pending && ManagedBy(employees, x, actor.id) then multiset(requests)[x] else 0
    ensures v.Shown? ==> forall x :: x in v.content <==>
      x in requests && x.status == Pending && ManagedBy(employees, x, actor.id)
  {
    if actor.rank != "Manager" then Denied
    else
      var ids := ManagedIds(employees, actor.id);
      var pending := Select(requests, (x: LeaveRequest) => x.employeeId in ids && x.status == Pending);
      var r := OrderBy(pending, Ascending);
      assert forall x: LeaveRequest :: x.employeeId in ids <==> ManagedBy(employees, x, actor.id);
      assert forall x :: x in r <==> multiset(r)[x] > 0;
      Shown(r)
  }

  /** `/admin_dashboard`: 403 unless the actor's rank is Admin; otherwise every
      employee, and every request with the latest start date first. */
  function AdminPortalPage(actor: Employee, employees: seq<Employee>, requests: seq<LeaveRequest>)
    : (v: View<(seq<Employee>, seq<LeaveRequest>)>)
    ensures v.Denied? <==> actor.rank != "Admin"
    ensures v.Shown? ==> v.content.0 == employees
    ensures v.Shown? ==> SortedBy(v.content.1, Descending) && multiset(v.content.1) == multiset(requests)
  {
    if actor.rank != "Admin" then Denied
    else Shown((employees, OrderBy(requests, Descending)))
  }

  /** A manager's pending list is the part of the whole table the admin sees
      that is pending and filed by the manager's reports. */
  lemma ManagerQueueWithinAdminView(
    manager: Employee, admin: Employee, employees: seq<Employee>, requests: seq<LeaveRequest>)
    requires manager.rank == "Manager" && admin.rank == "Admin"
    ensures forall x :: x in ManagerPortalPage(manager, employees, requests).content ==>
      x in AdminPortalPage(admin, employees, requests).content.1 && x.status == Pending
  {
  }

  /** Deciding a request (it is written back with a status other than
      Pending) takes it off the manager's pending list, while the owner's
      own list and the admin's list still show it. */
  lemma DecidedRequestLeavesPendingList(
    employees: seq<Employee>, requests: seq<LeaveRequest>, k: nat, verdict: Status,
    manager: Employee, owner: Employee, admin: Employee)
    requires k < |requests| && verdict != Pending
    requires manager.rank == "Manager" && admin.rank == "Admin" && IsStaffRank(owner.rank)
    requires owner.id == requests[k].employeeId
    ensures var after := requests[k := requests[k].(status := verdict)];
      && after[k] !in ManagerPortalPage(manager, employees, after).content
      && after[k] in MyRequestsPage(owner, after).content
      && after[k] in AdminPortalPage(admin, employees, after).content.1
  {
    var after := requests[k := requests[k].(status := verdict)];
    assert after[k] in after;
    assert after[k] in multiset(AdminPortalPage(admin, employees, after).content.1);
  }
}
