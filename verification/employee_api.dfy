/**
 * `EmployeeController` of the fourth Web API exercise (namespace EmployeeAPI): a static
 * `List<Employee>` whose read, update and delete actions first reject a non-positive
 * id and then answer an unknown id with the very same 400 response.
 */
module EmployeeApi {
  import opened Text
  import opened Http
  import opened IdList

  /** `Salary` is a C# `decimal`, modelled as an exact real. */
  datatype Employee = Employee(id: int, name: string, email: string, department: string, salary: real)

  const InvalidId := "Invalid employee id"
  const DataRequired := "Employee data is required"

  function IdOf(e: Employee): int {
    e.id
  }

  function Ids(employees: seq<Employee>): seq<int> {
    IdsOf(employees, IdOf)
  }

  /** `employees.FirstOrDefault(e => e.Id == id)`, as the position of that employee. */
  function Find(employees: seq<Employee>, id: int): Option<nat> {
    FindBy(employees, IdOf, id)
  }

  /**
   * The guard shared by GetEmployee, UpdateEmployee and DeleteEmployee: the position of
   * the employee the request is about, or nothing when the id is non-positive or unknown.
   */
  function Target(employees: seq<Employee>, id: int): (k: Option<nat>)
    ensures k.Some? <==> id > 0 && exists i :: 0 <= i < |employees| && employees[i].id == id
    ensures k.Some? ==> k == Find(employees, id)
  {
    if id <= 0 then None else Find(employees, id)
  }

  /** The stored record after UpdateEmployee: Name, Email, Department and Salary from the body, Id kept. */
  function Overwrite(stored: Employee, body: Employee): (e: Employee)
    ensures e.id == stored.id
    ensures e.(id := body.id) == body
  {
    stored.(name := body.name, email := body.email, department := body.department, salary := body.salary)
  }

  class EmployeeController {
    /** The static `employees` list. */
    var employees: seq<Employee>

    /** Every stored id is a C# `int`. */
    ghost predicate Valid()
      reads this
    {
      AllInt32(Ids(employees))
    }

    constructor ()
      ensures Valid()
      ensures employees == [
        Employee(1, "John Doe", "john@example.com", "IT", 50000.0),
        Employee(2, "Jane Smith", "jane@example.com", "HR", 45000.0),
        Employee(3, "Bob Johnson", "bob@example.com", "Finance", 55000.0)]
      ensures Distinct(Ids(employees))
    {
      employees := [
        Employee(1, "John Doe", "john@example.com", "IT", 50000.0),
        Employee(2, "Jane Smith", "jane@example.com", "HR", 45000.0),
        Employee(3, "Bob Johnson", "bob@example.com", "Finance", 55000.0)];
    }

    method GetAllEmployees() returns (r: ActionResult<seq<Employee>>)
      ensures r == Ok(employees)
    {
      r := Ok(employees);
    }

    /** GET api/employee/{id}: the first match for a positive id; one 400 for both a bad and an unknown id. */
    method GetEmployee(id: int) returns (r: ActionResult<Employee>)
      ensures r.Ok? <==> id > 0 && exists i :: 0 <= i < |employees| && employees[i].id == id
      ensures r.Ok? ==> r.body.id == id && r.body == employees[Find(employees, id).value]
      ensures !r.Ok? ==> r == BadRequest(Some(InvalidId))
    {
      if id <= 0 {
        return BadRequest(Some(InvalidId));
      }
      var k := Find(employees, id);
      if k.None? {
        return BadRequest(Some(InvalidId));
      }
      r := Ok(employees[k.value]);
    }

    /**
     * PUT api/employee/{id}: after the id guards, copies Name, Email, Department and
     * Salary onto the match. The body is never checked for null, so a null body on a
     * match throws.
     */
    method UpdateEmployee(id: int, body: Option<Employee>) returns (r: ActionResult<Employee>)
      requires Valid()
      modifies this
      ensures Valid()
      ensures Ids(employees) == Ids(old(employees))
      ensures Target(old(employees), id).None? ==> r == BadRequest(Some(InvalidId)) && employees == old(employees)
      ensures Target(old(employees), id).Some? && body.None? ==>
        r == Fault(NullReference) && employees == old(employees)
      ensures Target(old(employees), id).Some? && body.Some? ==>
        var k := Target(old(employees), id).value;
        employees == old(employees)[k := Overwrite(old(employees)[k], body.value)] &&
        r == Ok(employees[k])
    {
      if id <= 0 {
        return BadRequest(Some(InvalidId));
      }
      var k := Find(employees, id);
      if k.None? {
        return BadRequest(Some(InvalidId));
      }
      if body.None? {
        return Fault(NullReference);
      }
      var updated := Overwrite(employees[k.value], body.value);
      IdsOfReplace(employees, k.value, updated, IdOf);
      employees := employees[k.value := updated];
      r := Ok(updated);
    }

    /** POST api/employee: a null body is 400; otherwise Id := Max(Id) + 1 and append. */
    method CreateEmployee(body: Option<Employee>) returns (r: ActionResult<Employee>)
      requires Valid()
      modifies this
      ensures Valid()
      ensures body.None? ==> r == BadRequest(Some(DataRequired)) && employees == old(employees)
      ensures body.Some? && old(employees) == [] ==> r == Fault(InvalidOperation) && employees == old(employees)
      ensures body.Some? && old(employees) != [] ==>
        var e := body.value.(id := NextId(Ids(old(employees))));
        employees == old(employees) + [e] && r == Created(e.id, e)
      ensures body.Some? && old(employees) != [] && MaxId(Ids(old(employees))) < Int32Max ==>
        (forall i :: 0 <= i < |old(employees)| ==> old(employees)[i].id < r.id) &&
        (Distinct(Ids(old(employees))) ==> Distinct(Ids(employees)))
    {
      if body.None? {
        return BadRequest(Some(DataRequired));
      }
      if employees == [] {
        return Fault(InvalidOperation);
      }
      var ids := Ids(employees);
      var e := body.value.(id := NextId(ids));
      IdsOfAppend(employees, e, IdOf);
      if MaxId(ids) < Int32Max && Distinct(ids) {
        AppendNextIdKeepsDistinct(ids);
      }
      employees := employees + [e];
      r := Created(e.id, e);
    }

    /** DELETE api/employee/{id}: after the id guards, removes exactly the match and answers 204. */
    method DeleteEmployee(id: int) returns (r: ActionResult<()>)
      requires Valid()
      modifies this
      ensures Valid()
      ensures Target(old(employees), id).None? ==> r == BadRequest(Some(InvalidId)) && employees == old(employees)
      ensures Target(old(employees), id).Some? ==>
        r == NoContent && employees == RemoveAt(old(employees), Target(old(employees), id).value)
      ensures Distinct(Ids(old(employees))) ==> Distinct(Ids(employees))
    {
      if id <= 0 {
        return BadRequest(Some(InvalidId));
      }
      var k := Find(employees, id);
      if k.None? {
        return BadRequest(Some(InvalidId));
      }
      IdsOfRemoveAt(employees, k.value, IdOf);
      if Distinct(Ids(employees)) {
        RemoveAtKeepsDistinct(Ids(employees), k.value);
      }
      employees := RemoveAt(employees, k.value);
      r := NoContent;
    }
  }

  /**
   * A client cannot tell a non-positive id from an unknown positive one: both reach
   * every id-taking action as the same 400 and leave the list alone.
   */
  method BadAndUnknownIdsLookAlike(c: EmployeeController, unknown: int)
    returns (badGet: ActionResult<Employee>, unknownGet: ActionResult<Employee>,
             badDelete: ActionResult<()>, unknownDelete: ActionResult<()>)
    requires c.Valid()
    requires unknown > 0 && Find(c.employees, unknown).None?
    modifies c
    ensures badGet == unknownGet == BadRequest(Some(InvalidId))
    ensures badDelete == unknownDelete == BadRequest(Some(InvalidId))
    ensures c.employees == old(c.employees)
  {
    badGet := c.GetEmployee(0);
    unknownGet := c.GetEmployee(unknown);
    var u := c.UpdateEmployee(-5, None);
    var v := c.UpdateEmployee(unknown, None);
    assert u == v == badGet;
    badDelete := c.DeleteEmployee(0);
    unknownDelete := c.DeleteEmployee(unknown);
  }
}
