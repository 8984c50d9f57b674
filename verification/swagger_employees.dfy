/**
 * `EmployeeController` of the second Web API exercise (namespace SwaggerDemoAPI):
 * a static `List<Employee>` with lookup by `Id`, creation with `Max(Id) + 1`,
 * field-by-field update and removal. The object below stands for the static list.
 */
module SwaggerDemoEmployees {
  import opened Text
  import opened Http
  import opened IdList

  /** `Salary` is a C# `decimal`, modelled as an exact real. */
  datatype Employee = Employee(id: int, name: string, department: string, salary: real)

  function IdOf(e: Employee): int {
    e.id
  }

  function Ids(employees: seq<Employee>): seq<int> {
    IdsOf(employees, IdOf)
  }

  /** `employees.FirstOrDefault(e => e.Id == id)`, as the position of that employee. */
  function Find(employees: seq<Employee>, id: int): Option<nat> {
    FindBy(employees, IdOf, id)
  }

  /** The stored record after UpdateEmployee: Name, Department and Salary from the body, Id kept. */
  function Overwrite(stored: Employee, body: Employee): (e: Employee)
    ensures e.id == stored.id
    ensures e.name == body.name && e.department == body.department && e.salary == body.salary
  {
    stored.(name := body.name, department := body.department, salary := body.salary)
  }

  class EmployeeController {
    /** The static `employees` list. */
    var employees: seq<Employee>

    /** Every stored id is a C# `int`. */
    ghost predicate Valid()
      reads this
    {
      AllInt32(Ids(employees))
    }

    constructor ()
      ensures Valid()
      ensures employees == [
        Employee(1, "John Doe", "IT", 50000.0),
        Employee(2, "Jane Smith", "HR", 55000.0),
        Employee(3, "Bob Johnson", "Finance", 60000.0)]
      ensures Distinct(Ids(employees))
    {
      employees := [
        Employee(1, "John Doe", "IT", 50000.0),
        Employee(2, "Jane Smith", "HR", 55000.0),
        Employee(3, "Bob Johnson", "Finance", 60000.0)];
    }

    method GetAllEmployees() returns (r: ActionResult<seq<Employee>>)
      ensures r == Ok(employees)
    {
      r := Ok(employees);
    }

    /** GET api/employee/{id}: the first employee with that id, or a bare 404. */
    method GetEmployeeById(id: int) returns (r: ActionResult<Employee>)
      ensures r.Ok? <==> exists i :: 0 <= i < |employees| && employees[i].id == id
      ensures r.Ok? ==> r.body.id == id && Find(employees, id).Some? && r.body == employees[Find(employees, id).value]
      ensures !r.Ok? ==> r == NotFound(None)
    {
      var k := Find(employees, id);
      if k.None? {
        return NotFound(None);
      }
      r := Ok(employees[k.value]);
    }

    /**
     * POST api/employee: a null body is 400; otherwise the client's Id is replaced by
     * Max(Id) + 1 and the employee appended. `Max` over an empty list throws.
     */
    method CreateEmployee(body: Option<Employee>) returns (r: ActionResult<Employee>)
      requires Valid()
      modifies this
      ensures Valid()
      ensures body.None? ==> r == BadRequest(None) && employees == old(employees)
      ensures body.Some? && old(employees) == [] ==> r == Fault(InvalidOperation) && employees == old(employees)
      ensures body.Some? && old(employees) != [] ==>
        var e := body.value.(id := NextId(Ids(old(employees))));
        employees == old(employees) + [e] && r == Created(e.id, e)
      ensures body.Some? && old(employees) != [] && MaxId(Ids(old(employees))) < Int32Max ==>
        (forall i :: 0 <= i < |old(employees)| ==> old(employees)[i].id < r.id) &&
        (Distinct(Ids(old(employees))) ==> Distinct(Ids(employees)))
    {
      if body.None? {
        return BadRequest(None);
      }
      if employees == [] {
        return Fault(InvalidOperation);
      }
      var ids := Ids(employees);
      var e := body.value.(id := NextId(ids));
      IdsOfAppend(employees, e, IdOf);
      if MaxId(ids) < Int32Max && Distinct(ids) {
        AppendNextIdKeepsDistinct(ids);
      }
      employees := employees + [e];
      r := Created(e.id, e);
    }

    /**
     * PUT api/employee/{id}: copies Name, Department and Salary onto the first match,
     * keeping its Id and position; 404 when nothing matches. The body is not checked
     * for null, so a null body with a matching id throws.
     */
    method UpdateEmployee(id: int, body: Option<Employee>) returns (r: ActionResult<Employee>)
      requires Valid()
      modifies this
      ensures Valid()
      ensures Ids(employees) == Ids(old(employees))
      ensures Find(old(employees), id).None? ==> r == NotFound(None) && employees == old(employees)
      ensures Find(old(employees), id).Some? && body.None? ==>
        r == Fault(NullReference) && employees == old(employees)
      ensures Find(old(employees), id).Some? && body.Some? ==>
        var k := Find(old(employees), id).value;
        employees == old(employees)[k := Overwrite(old(employees)[k], body.value)] &&
        r == Ok(employees[k])
    {
      var k := Find(employees, id);
      if k.None? {
        return NotFound(None);
      }
      if body.None? {
        return Fault(NullReference);
      }
      var updated := Overwrite(employees[k.value], body.value);
      IdsOfReplace(employees, k.value, updated, IdOf);
      employees := employees[k.value := updated];
      r := Ok(updated);
    }

    /** DELETE api/employee/{id}: removes the first match, keeping the others in order; 404 otherwise. */
    method DeleteEmployee(id: int) returns (r: ActionResult<()>)
      requires Valid()
      modifies this
      ensures Valid()
      ensures Find(old(employees), id).None? ==> r == NotFound(None) && employees == old(employees)
      ensures Find(old(employees), id).Some? ==>
        r == OkEmpty && employees == RemoveAt(old(employees), Find(old(employees), id).value)
      ensures Distinct(Ids(old(employees))) ==> Distinct(Ids(employees))
    {
      var k := Find(employees, id);
      if k.None? {
        return NotFound(None);
      }
      IdsOfRemoveAt(employees, k.value, IdOf);
      if Distinct(Ids(employees)) {
        RemoveAtKeepsDistinct(Ids(employees), k.value);
      }
      employees := RemoveAt(employees, k.value);
      r := OkEmpty;
    }
  }

  /** With distinct ids, the employee a delete removes was the only one with that id. */
  lemma DeleteRemovesEveryMatch(employees: seq<Employee>, id: int)
    requires Distinct(Ids(employees))
    requires Find(employees, id).Some?
    ensures forall i :: 0 <= i < |employees| - 1 ==> RemoveAt(employees, Find(employees, id).value)[i].id != id
  {
    var k := Find(employees, id).value;
    var r := RemoveAt(employees, k);
    forall i | 0 <= i < |r| ensures r[i].id != id {
      var i' := if i < k then i else i + 1;
      assert r[i] == employees[i'] && i' != k;
      assert Ids(employees)[i'] != Ids(employees)[k];
    }
  }
}
