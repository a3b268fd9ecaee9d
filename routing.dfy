/** The entry points `home` and `login_page`: where an actor is sent, and
    when a login attempt succeeds. Checking a password against its stored
    hash is a one-way primitive of a hashing library; it is the parameter
    `verifies(hash, password)`. */
module Routing {
  import opened LeaveRecords

  /** The dashboard for a rank: Admin and Manager have their own, every
      other rank string shares the employee dashboard. */
  function DashboardFor(rank: string): (target: Endpoint)
    ensures target == AdminPortal <==> rank == "Admin"
    ensures target == ManagerPortal <==> rank == "Manager"
    ensures target == EmployeePortal <==> rank != "Admin" && rank != "Manager"
  {
    if rank == "Admin" then AdminPortal
    else if rank == "Manager" then ManagerPortal
    else EmployeePortal
  }

  /** The `/` route: the login page for an anonymous visitor, otherwise the
      dashboard of the current actor's rank. */
  function Home(actor: Option<Employee>): (target: Endpoint)
    ensures target == LoginPage <==> actor.None?
    ensures actor.Some? && actor.value.rank == "Admin" ==> target == AdminPortal
    ensures actor.Some? && actor.value.rank == "Manager" ==> target == ManagerPortal
    ensures actor.Some? && actor.value.rank != "Admin" && actor.value.rank != "Manager" ==> target == EmployeePortal
  {
    match actor
    case None => LoginPage
    case Some(e) => DashboardFor(e.rank)
  }

  /** A login form that passed field validation. */
  datatype Credentials = Credentials(name: string, password: string)

  /** The login page's answers: the form (not submitted), the form again with
      the one generic failure message, or a new session for `user` with a
      redirect to `landing`. */
  datatype LoginOutcome = LoginForm | LoginRejected | LoggedIn(user: Employee, landing: Endpoint)

  /** `filter_by(name=...).first()`: the first employee row with that name. */
  function FindByName(employees: seq<Employee>, name: string): (found: Option<Employee>)
    ensures found.Some? ==> found.value in employees && found.value.name == name
    ensures found.None? <==> forall e :: e in employees ==> e.name != name
  {
    if employees == [] then None
    else if employees[0].name == name then Some(employees[0])
    else FindByName(employees[1..], name)
  }

  /** The `/login` route. `form` is None when nothing valid was submitted. */
  function Login(employees: seq<Employee>, form: Option<Credentials>, verifies: (string, string) -> bool): (r: LoginOutcome)
    ensures form.None? ==> r == LoginForm
    ensures form.Some? ==> r != LoginForm
    ensures r.LoggedIn? ==>
      && form.Some?
      && r.user in employees
      && r.user.name == form.value.name
      && verifies(r.user.passwordHash, form.value.password)
      && r.landing == DashboardFor(r.user.rank)
  {
    match form
    case None => LoginForm
    case Some(c) =>
      match FindByName(employees, c.name)
      case Some(person) =>
        if verifies(person.passwordHash, c.password) then LoggedIn(person, DashboardFor(person.rank))
        else LoginRejected
      case None => LoginRejected
  }

  /** With unique names, the lookup by name finds the one row with that name. */
  lemma FindByNameExact(employees: seq<Employee>, e: Employee)
    requires UniqueNames(employees)
    requires e in employees
    ensures FindByName(employees, e.name) == Some(e)
  {
  }

  /** A submitted login succeeds exactly when some employee has that name
      and the password verifies against that employee's hash. */
  lemma LoginSucceedsIff(employees: seq<Employee>, c: Credentials, verifies: (string, string) -> bool)
    requires UniqueNames(employees)
    ensures Login(employees, Some(c), verifies).LoggedIn? <==>
      exists e :: e in employees && e.name == c.name && verifies(e.passwordHash, c.password)
  {
  }

  /** An unknown name and a known name with a wrong password give the same
      answer, so the page does not reveal which names exist. */
  lemma NoUsernameEnumeration(
    employees: seq<Employee>, unknown: Credentials, wrong: Credentials, verifies: (string, string) -> bool)
    requires forall e :: e in employees ==> e.name != unknown.name
    requires exists e :: e in employees && e.name == wrong.name
    requires forall e :: e in employees && e.name == wrong.name ==> !verifies(e.passwordHash, wrong.password)
    ensures Login(employees, Some(unknown), verifies) == Login(employees, Some(wrong), verifies) == LoginRejected
  {
  }

  /** After a successful login, the redirect is the one `/` would give the
      new session. */
  lemma LoginLandsWhereHomeSends(employees: seq<Employee>, form: Option<Credentials>, verifies: (string, string) -> bool)
    requires Login(employees, form, verifies).LoggedIn?
    ensures var r := Login(employees, form, verifies); r.landing == Home(Some(r.user))
  {
  }
}
