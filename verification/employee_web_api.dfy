/**
 * `EmployeeController` of the third Web API exercise (namespace EmployeeWebApi). Unlike
 * the other exercises its list is an instance field, seeded by the constructor from
 * `GetStandardEmployeeList`; ASP.NET Core creates a controller per request, so every
 * request starts from the same three employees.
 */
module EmployeeWebApi {
  import opened Text
  import opened Http
  import opened IdList

  datatype Date = Date(year: int, month: int, day: int)
  datatype Department = Department(id: int, name: string)
  datatype Skill = Skill(id: int, name: string, level: string)

  /** `Salary` is modelled as an exact real. */
  datatype Employee = Employee(
    id: int,
    name: string,
    salary: real,
    permanent: bool,
    department: Department,
    skills: seq<Skill>,
    dateOfBirth: Date)

  const DataRequired := "Employee data is required"

  function NotFoundMessage(id: int): string {
    "Employee with ID " + IntToText(id) + " not found"
  }

  function IdOf(e: Employee): int {
    e.id
  }

  function Ids(employees: seq<Employee>): seq<int> {
    IdsOf(employees, IdOf)
  }

  /** `_employees.FirstOrDefault(e => e.Id == id)`, as the position of that employee. */
  function Find(employees: seq<Employee>, id: int): Option<nat> {
    FindBy(employees, IdOf, id)
  }

  /** The stored record after Update: every field but Id taken from the body. */
  function Overwrite(stored: Employee, body: Employee): (e: Employee)
    ensures e.id == stored.id
    ensures e.(id := body.id) == body
  {
    stored.(name := body.name, salary := body.salary, permanent := body.permanent,
            department := body.department, skills := body.skills, dateOfBirth := body.dateOfBirth)
  }

  /** `GetStandardEmployeeList`. */
  function StandardEmployees(): (s: seq<Employee>)
    ensures Ids(s) == [1, 2, 3]
  {
    [
      Employee(1, "John Doe", 50000.0, true, Department(1, "IT"),
        [Skill(1, "C#", "Advanced"), Skill(2, "ASP.NET", "Intermediate")], Date(1985, 6, 15)),
      Employee(2, "Jane Smith", 60000.0, false, Department(2, "HR"),
        [Skill(3, "Communication", "Expert"), Skill(4, "Leadership", "Advanced")], Date(1990, 3, 22)),
      Employee(3, "Bob Johnson", 55000.0, true, Department(1, "IT"),
        [Skill(5, "JavaScript", "Advanced"), Skill(6, "React", "Intermediate")], Date(1988, 12, 10))
    ]
  }

  class EmployeeController {
    /** The `_employees` field. */
    var employees: seq<Employee>

    /** Every stored id is a C# `int`. */
    ghost predicate Valid()
      reads this
    {
      AllInt32(Ids(employees))
    }

    /** Every new controller starts from the three standard employees, with ids 1, 2 and 3. */
    constructor ()
      ensures Valid()
      ensures employees == StandardEmployees()
      ensures Ids(employees) == [1, 2, 3] && Distinct(Ids(employees))
    {
      employees := StandardEmployees();
    }

    method GetStandard() returns (r: ActionResult<seq<Employee>>)
      ensures r == Ok(employees)
    {
      r := Ok(employees);
    }

    /** GET api/employee/{id}: the first employee with that id, or 404 naming the id. */
    method GetById(id: int) returns (r: ActionResult<Employee>)
      ensures r.Ok? <==> exists i :: 0 <= i < |employees| && employees[i].id == id
      ensures r.Ok? ==> r.body.id == id && Find(employees, id).Some? && r.body == employees[Find(employees, id).value]
      ensures !r.Ok? ==> r == NotFound(Some(NotFoundMessage(id)))
    {
      var k := Find(employees, id);
      if k.None? {
        return NotFound(Some(NotFoundMessage(id)));
      }
      r := Ok(employees[k.value]);
    }

    /** POST api/employee: null body is 400; otherwise Id := Max(Id) + 1 and append. */
    method Create(body: Option<Employee>) returns (r: ActionResult<Employee>)
      requires Valid()
      modifies this
      ensures Valid()
      ensures body.None? ==> r == BadRequest(Some(DataRequired)) && employees == old(employees)
      ensures body.Some? && old(employees) == [] ==> r == Fault(InvalidOperation) && employees == old(employees)
      ensures body.Some? && old(employees) != [] ==>
        var e := body.value.(id := NextId(Ids(old(employees))));
        employees == old(employees) + [e] && r == Created(e.id, e)
      ensures body.Some? && old(employees) != [] && MaxId(Ids(old(employees))) < Int32Max ==>
        (forall i :: 0 <= i < |old(employees)| ==> old(employees)[i].id < r.id) &&
        (Distinct(Ids(old(employees))) ==> Distinct(Ids(employees)))
    {
      if body.None? {
        return BadRequest(Some(DataRequired));
      }
      if employees == [] {
        return Fault(InvalidOperation);
      }
      var ids := Ids(employees);
      var e := body.value.(id := NextId(ids));
      IdsOfAppend(employees, e, IdOf);
      if MaxId(ids) < Int32Max && Distinct(ids) {
        AppendNextIdKeepsDistinct(ids);
      }
      employees := employees + [e];
      r := Created(e.id, e);
    }

    /**
     * PUT api/employee/{id}: the body is checked before the lookup, so a null body is
     * 400 even for an unknown id; a match gets all fields but Id from the body.
     */
    method Update(id: int, body: Option<Employee>) returns (r: ActionResult<Employee>)
      requires Valid()
      modifies this
      ensures Valid()
      ensures Ids(employees) == Ids(old(employees))
      ensures body.None? ==> r == BadRequest(Some(DataRequired)) && employees == old(employees)
      ensures body.Some? && Find(old(employees), id).None? ==>
        r == NotFound(Some(NotFoundMessage(id))) && employees == old(employees)
      ensures body.Some? && Find(old(employees), id).Some? ==>
        var k := Find(old(employees), id).value;
        employees == old(employees)[k := Overwrite(old(employees)[k], body.value)] &&
        r == Ok(employees[k])
    {
      if body.None? {
        return BadRequest(Some(DataRequired));
      }
      var k := Find(employees, id);
      if k.None? {
        return NotFound(Some(NotFoundMessage(id)));
      }
      var updated := Overwrite(employees[k.value], body.value);
      IdsOfReplace(employees, k.value, updated, IdOf);
      employees := employees[k.value := updated];
      r := Ok(updated);
    }

    /** DELETE api/employee/{id}: removes exactly the first match; 404 leaves the list alone. */
    method Delete(id: int) returns (r: ActionResult<()>)
      requires Valid()
      modifies this
      ensures Valid()
      ensures Find(old(employees), id).None? ==>
        r == NotFound(Some(NotFoundMessage(id))) && employees == old(employees)
      ensures Find(old(employees), id).Some? ==>
        r == NoContent && employees == RemoveAt(old(employees), Find(old(employees), id).value)
      ensures Distinct(Ids(old(employees))) ==> Distinct(Ids(employees))
    {
      var k := Find(employees, id);
      if k.None? {
        return NotFound(Some(NotFoundMessage(id)));
      }
      IdsOfRemoveAt(employees, k.value, IdOf);
      if Distinct(Ids(employees)) {
        RemoveAtKeepsDistinct(Ids(employees), k.value);
      }
      employees := RemoveAt(employees, k.value);
      r := NoContent;
    }
  }

  /** Changes made through one controller are not seen by the next request's controller. */
  method FreshControllerForgetsChanges() returns (changed: seq<Employee>, next: seq<Employee>)
    ensures changed == StandardEmployees()[1..]
    ensures next == StandardEmployees()
  {
    var first := new EmployeeController();
    var deleted := first.Delete(1);
    changed := first.employees;
    var second := new EmployeeController();
    next := second.employees;
  }
}
