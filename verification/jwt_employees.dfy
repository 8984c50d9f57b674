/**
 * `EmployeeController` of the fifth Web API exercise (namespace JwtWebApiDemo): a static
 * employee list behind JWT authentication. Every action needs an authenticated caller;
 * the writing actions and two demonstration endpoints also need a role, declared with
 * `[Authorize(Roles = ...)]`. The role table and the any-of membership check are stated
 * below; the middleware that enforces them is not part of this model.
 */
module JwtEmployees {
  import opened Text
  import opened Http
  import opened IdList
  import opened JwtAuth

  datatype Employee = Employee(id: int, name: string, position: string, department: string)

  /** The caller as the authentication middleware presents it (`User`). */
  datatype Principal = Anonymous | Authenticated(claims: seq<Claim>)

  /** The controller's actions, as routed. */
  datatype Action =
    | GetAllEmployees
    | GetEmployee
    | CreateEmployee
    | UpdateEmployee
    | DeleteEmployee
    | AdminOnlyEndpoint
    | AdminOrPocEndpoint

  /** Authorization outcome: run the action, 401 (not authenticated), or 403 (no required role). */
  datatype Decision = Allow | Challenge | Forbid

  /** The anonymous response objects the actions build. */
  datatype Reply =
    | Listing(message: string, requestedBy: Option<string>, employees: seq<Employee>)
    | Record(message: string, requestedBy: Option<string>, employee: Employee)
    | Notice(message: string)

  const EmployeeNotFound := "Employee not found"

  /** The `Roles` string of the action's own `[Authorize]` attribute, if it has one. */
  function RolesOf(a: Action): (roles: Option<string>)
    ensures roles.None? <==> a.GetAllEmployees? || a.GetEmployee?
  {
    match a
    case GetAllEmployees => None
    case GetEmployee => None
    case CreateEmployee => Some("Admin")
    case UpdateEmployee => Some("Admin")
    case DeleteEmployee => Some("Admin")
    case AdminOnlyEndpoint => Some("Admin")
    case AdminOrPocEndpoint => Some("Admin,POC")
  }

  /** `User.IsInRole(role)`: some role claim carries exactly that value. */
  predicate IsInRole(claims: seq<Claim>, role: string) {
    exists i :: 0 <= i < |claims| && claims[i] == Claim(RoleClaimType, role)
  }

  /** A comma list of roles is satisfied by any one of them. */
  predicate InAnyRole(claims: seq<Claim>, roles: seq<string>) {
    exists k :: 0 <= k < |roles| && IsInRole(claims, roles[k])
  }

  /** The class-level `[Authorize]` followed by the action's own role requirement. */
  function Authorize(a: Action, user: Principal): (d: Decision)
    ensures d == Challenge <==> user.Anonymous?
    ensures d == Allow <==>
      (user.Authenticated? && (RolesOf(a).None? || InAnyRole(user.claims, Split(RolesOf(a).value, ','))))
  {
    if user.Anonymous? then Challenge
    else if RolesOf(a).None? || InAnyRole(user.claims, Split(RolesOf(a).value, ',')) then Allow
    else Forbid
  }

  /** Create, update, delete and the admin-only endpoint admit exactly authenticated Admins. */
  lemma AdminOnlyActions(a: Action, user: Principal)
    requires a.CreateEmployee? || a.UpdateEmployee? || a.DeleteEmployee? || a.AdminOnlyEndpoint?
    ensures Authorize(a, user) == Allow <==> user.Authenticated? && IsInRole(user.claims, "Admin")
  {
    SplitWithoutSeparator("Admin", ',');
    if user.Authenticated? && IsInRole(user.claims, "Admin") {
      assert Split("Admin", ',')[0] == "Admin";
    }
  }

  /** "Admin,POC" means either role, not both. */
  lemma AdminOrPocAction(user: Principal)
    ensures Authorize(AdminOrPocEndpoint, user) == Allow <==>
      user.Authenticated? && (IsInRole(user.claims, "Admin") || IsInRole(user.claims, "POC"))
  {
    if user.Authenticated? {
      AdminOrPocRoles();
      AnyOfTwo(user.claims, "Admin", "POC");
    }
  }

  /** Membership in a two-role list is membership in either role. */
  lemma AnyOfTwo(claims: seq<Claim>, r0: string, r1: string)
    ensures InAnyRole(claims, [r0, r1]) <==> IsInRole(claims, r0) || IsInRole(claims, r1)
  {
    var roles := [r0, r1];
    if IsInRole(claims, r0) {
      assert IsInRole(claims, roles[0]);
    }
    if IsInRole(claims, r1) {
      assert IsInRole(claims, roles[1]);
    }
  }

  /** The role list "Admin,POC" splits into its two roles. */
  lemma AdminOrPocRoles()
    ensures Split("Admin,POC", ',') == ["Admin", "POC"]
  {
    SplitWithoutSeparator("POC", ',');
    SplitFirstPiece("Admin", ',', "POC");
    assert "Admin" + [','] + "POC" == "Admin,POC";
  }

  /** The two listing actions only need a signed-in caller. */
  lemma ReadActionsNeedOnlyAuthentication(a: Action, user: Principal)
    requires a.GetAllEmployees? || a.GetEmployee?
    ensures Authorize(a, user) == Allow <==> user.Authenticated?
  {
  }

  /** A token from the admin login may create employees. */
  lemma AdminTokenMayCreate(now: int)
    ensures var admin := Login(LoginRequest("admin", "password"), now, None);
      admin.Ok? && Authorize(CreateEmployee, Authenticated(admin.body.token.claims)) == Allow
  {
    var admin := Login(LoginRequest("admin", "password"), now, None).body.token.claims;
    assert admin == UserClaims(1, "Admin");
    assert admin[0] == Claim(RoleClaimType, "Admin");
    AdminOnlyActions(CreateEmployee, Authenticated(admin));
  }

  /** A token from the user login may read the list but not create employees. */
  lemma UserTokenMayOnlyRead(now: int)
    ensures var user := Login(LoginRequest("user", "password"), now, None);
      user.Ok? &&
      Authorize(GetAllEmployees, Authenticated(user.body.token.claims)) == Allow &&
      Authorize(CreateEmployee, Authenticated(user.body.token.claims)) == Forbid
  {
    var user := Login(LoginRequest("user", "password"), now, None).body.token.claims;
    assert user == UserClaims(2, "User");
    AdminOnlyActions(CreateEmployee, Authenticated(user));
    assert |RoleClaimType| == 60 && |NameClaimType| == 58;
    assert !IsInRole(user, "Admin") by {
      forall i | 0 <= i < |user| ensures user[i] != Claim(RoleClaimType, "Admin") {
        assert i == 0 || i == 1 || i == 2;
      }
    }
  }

  /** A missing claim renders as empty text inside the interpolated string. */
  function OrEmpty(v: Option<string>): string {
    if v.Some? then v.value else ""
  }

  /** `$"User ID: {userId}, Role: {userRole}"` over the caller's claims. */
  function RequestedBy(claims: seq<Claim>): string {
    "User ID: " + OrEmpty(FindFirst(claims, UserIdClaimType)) + ", Role: " + OrEmpty(FindFirst(claims, RoleClaimType))
  }

  /** For a caller holding a token this controller's login issued, RequestedBy echoes its id and role. */
  lemma RequestedByEchoesToken(userId: int, userRole: string, now: int)
    ensures var t := GenerateJSONWebToken(userId, userRole, now, None);
      t.Issued? && RequestedBy(t.token.claims) == "User ID: " + IntToText(userId) + ", Role: " + userRole
  {
  }

  function IdOf(e: Employee): int {
    e.id
  }

  function Ids(employees: seq<Employee>): seq<int> {
    IdsOf(employees, IdOf)
  }

  /** `Employees.FirstOrDefault(e => e.Id == id)`, as the position of that employee. */
  function Find(employees: seq<Employee>, id: int): Option<nat> {
    FindBy(employees, IdOf, id)
  }

  /** The stored record after UpdateEmployee: Name, Position and Department from the body, Id kept. */
  function Overwrite(stored: Employee, body: Employee): (e: Employee)
    ensures e.id == stored.id
    ensures e.(id := body.id) == body
  {
    stored.(name := body.name, position := body.position, department := body.department)
  }

  class EmployeeController {
    /** The static `Employees` list. */
    var employees: seq<Employee>

    /** Every stored id is a C# `int`. */
    ghost predicate Valid()
      reads this
    {
      AllInt32(Ids(employees))
    }

    constructor ()
      ensures Valid()
      ensures employees == [
        Employee(1, "John Doe", "Developer", "IT"),
        Employee(2, "Jane Smith", "Manager", "HR"),
        Employee(3, "Bob Johnson", "Analyst", "Finance")]
      ensures Distinct(Ids(employees))
    {
      employees := [
        Employee(1, "John Doe", "Developer", "IT"),
        Employee(2, "Jane Smith", "Manager", "HR"),
        Employee(3, "Bob Johnson", "Analyst", "Finance")];
    }

    /** GET api/employee: the whole list, with the caller's id and role echoed. */
    method GetAllEmployees(claims: seq<Claim>) returns (r: ActionResult<Reply>)
      ensures r == Ok(Listing("Employees retrieved successfully", Some(RequestedBy(claims)), employees))
    {
      r := Ok(Listing("Employees retrieved successfully", Some(RequestedBy(claims)), employees));
    }

    /** GET api/employee/{id}: the first match with the caller echoed, else 404. */
    method GetEmployee(id: int, claims: seq<Claim>) returns (r: ActionResult<Reply>)
      ensures r.Ok? <==> exists i :: 0 <= i < |employees| && employees[i].id == id
      ensures r.Ok? ==> r.body == Record("Employee retrieved successfully", Some(RequestedBy(claims)),
                                         employees[Find(employees, id).value])
      ensures r.Ok? ==> r.body.employee.id == id
      ensures !r.Ok? ==> r == NotFound(Some(EmployeeNotFound))
    {
      var k := Find(employees, id);
      if k.None? {
        return NotFound(Some(EmployeeNotFound));
      }
      r := Ok(Record("Employee retrieved successfully", Some(RequestedBy(claims)), employees[k.value]));
    }

    /**
     * POST api/employee: Id := Max(Id) + 1 and append. There is no null check: `Max` is
     * evaluated first (throwing on an empty list), then the Id assignment throws on a null body.
     */
    method CreateEmployee(body: Option<Employee>) returns (r: ActionResult<Employee>)
      requires Valid()
      modifies this
      ensures Valid()
      ensures old(employees) == [] ==> r == Fault(InvalidOperation) && employees == old(employees)
      ensures old(employees) != [] && body.None? ==> r == Fault(NullReference) && employees == old(employees)
      ensures old(employees) != [] && body.Some? ==>
        var e := body.value.(id := NextId(Ids(old(employees))));
        employees == old(employees) + [e] && r == Created(e.id, e)
      ensures old(employees) != [] && body.Some? && MaxId(Ids(old(employees))) < Int32Max ==>
        (forall i :: 0 <= i < |old(employees)| ==> old(employees)[i].id < r.id) &&
        (Distinct(Ids(old(employees))) ==> Distinct(Ids(employees)))
    {
      if employees == [] {
        return Fault(InvalidOperation);
      }
      var ids := Ids(employees);
      var next := NextId(ids);
      if body.None? {
        return Fault(NullReference);
      }
      var e := body.value.(id := next);
      IdsOfAppend(employees, e, IdOf);
      if MaxId(ids) < Int32Max && Distinct(ids) {
        AppendNextIdKeepsDistinct(ids);
      }
      employees := employees + [e];
      r := Created(e.id, e);
    }

    /** PUT api/employee/{id}: copies Name, Position and Department onto the match; 404 otherwise. */
    method UpdateEmployee(id: int, body: Option<Employee>) returns (r: ActionResult<Reply>)
      requires Valid()
      modifies this
      ensures Valid()
      ensures Ids(employees) == Ids(old(employees))
      ensures Find(old(employees), id).None? ==> r == NotFound(Some(EmployeeNotFound)) && employees == old(employees)
      ensures Find(old(employees), id).Some? && body.None? ==>
        r == Fault(NullReference) && employees == old(employees)
      ensures Find(old(employees), id).Some? && body.Some? ==>
        var k := Find(old(employees), id).value;
        employees == old(employees)[k := Overwrite(old(employees)[k], body.value)] &&
        r == Ok(Record("Employee updated successfully", None, employees[k]))
    {
      var k := Find(employees, id);
      if k.None? {
        return NotFound(Some(EmployeeNotFound));
      }
      if body.None? {
        return Fault(NullReference);
      }
      var updated := Overwrite(employees[k.value], body.value);
      IdsOfReplace(employees, k.value, updated, IdOf);
      employees := employees[k.value := updated];
      r := Ok(Record("Employee updated successfully", None, updated));
    }

    /** DELETE api/employee/{id}: removes exactly the match and confirms it; 404 otherwise. */
    method DeleteEmployee(id: int) returns (r: ActionResult<Reply>)
      requires Valid()
      modifies this
      ensures Valid()
      ensures Find(old(employees), id).None? ==> r == NotFound(Some(EmployeeNotFound)) && employees == old(employees)
      ensures Find(old(employees), id).Some? ==>
        r == Ok(Notice("Employee deleted successfully")) &&
        employees == RemoveAt(old(employees), Find(old(employees), id).value)
      ensures Distinct(Ids(old(employees))) ==> Distinct(Ids(employees))
    {
      var k := Find(employees, id);
      if k.None? {
        return NotFound(Some(EmployeeNotFound));
      }
      IdsOfRemoveAt(employees, k.value, IdOf);
      if Distinct(Ids(employees)) {
        RemoveAtKeepsDistinct(Ids(employees), k.value);
      }
      employees := RemoveAt(employees, k.value);
      r := Ok(Notice("Employee deleted successfully"));
    }

    /** GET api/employee/admin-only. */
    method AdminOnly() returns (r: ActionResult<Reply>)
      ensures r == Ok(Notice("This endpoint is only accessible by Admin users"))
    {
      r := Ok(Notice("This endpoint is only accessible by Admin users"));
    }

    /** GET api/employee/admin-or-poc. */
    method AdminOrPoc() returns (r: ActionResult<Reply>)
      ensures r == Ok(Notice("This endpoint is accessible by Admin or POC users"))
    {
      r := Ok(Notice("This endpoint is accessible by Admin or POC users"));
    }
  }
}
