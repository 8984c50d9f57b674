/**
 * The MVC pattern exercise: a `StudentController` updates a `Student` model it shares
 * with its caller, reads it back, and asks a `StudentView` to print it. The console is
 * an object holding the printed lines.
 */
module StudentMvc {
  import opened Text

  class Console {
    var lines: seq<string>

    constructor ()
      ensures lines == []
    {
      lines := [];
    }
  }

  /** The model. */
  class Student {
    var id: string
    var name: string
    var grade: string

    constructor (id: string, name: string, grade: string)
      ensures this.id == id && this.name == name && this.grade == grade
    {
      this.id := id;
      this.name := name;
      this.grade := grade;
    }
  }

  const DetailsHeader := "\n--- Student Details ---"
  const DetailsFooter := "-----------------------"

  /** The block `DisplayStudentDetails` prints. */
  function DetailsLines(id: string, name: string, grade: string): seq<string> {
    [DetailsHeader, "ID: " + id, "Name: " + name, "Grade: " + grade, DetailsFooter]
  }

  /** Reads a printed details block back into its id, name and grade. */
  function ReadDetails(lines: seq<string>): Option<(string, string, string)> {
    if |lines| == 5 && lines[0] == DetailsHeader && lines[4] == DetailsFooter &&
       |lines[1]| >= 4 && lines[1][..4] == "ID: " &&
       |lines[2]| >= 6 && lines[2][..6] == "Name: " &&
       |lines[3]| >= 7 && lines[3][..7] == "Grade: "
    then Some((lines[1][4..], lines[2][6..], lines[3][7..]))
    else None
  }

  /** The view shows exactly the three values it is given, in the order id, name, grade. */
  lemma DetailsRoundTrip(id: string, name: string, grade: string)
    ensures ReadDetails(DetailsLines(id, name, grade)) == Some((id, name, grade))
  {
    var lines := DetailsLines(id, name, grade);
    assert lines[1][..4] == "ID: " && lines[1][4..] == id;
    assert lines[2][..6] == "Name: " && lines[2][6..] == name;
    assert lines[3][..7] == "Grade: " && lines[3][7..] == grade;
  }

  /** Different students print different blocks. */
  lemma DetailsInjective(a: (string, string, string), b: (string, string, string))
    requires DetailsLines(a.0, a.1, a.2) == DetailsLines(b.0, b.1, b.2)
    ensures a == b
  {
    DetailsRoundTrip(a.0, a.1, a.2);
    DetailsRoundTrip(b.0, b.1, b.2);
  }

  /** The view: stateless, it only prints. */
  class StudentView {
    constructor ()
    {
    }

    method DisplayStudentDetails(studentId: string, studentName: string, studentGrade: string, console: Console)
      modifies console
      ensures console.lines == old(console.lines) + DetailsLines(studentId, studentName, studentGrade)
    {
      console.lines := console.lines + DetailsLines(studentId, studentName, studentGrade);
    }
  }

  function NameChangeLine(from: string, to: string): string {
    "Controller: Updating student name from '" + from + "' to '" + to + "'"
  }

  function GradeChangeLine(from: string, to: string): string {
    "Controller: Updating student grade from '" + from + "' to '" + to + "'"
  }

  const InstructingView := "Controller: Instructing View to display updated details."

  class StudentController {
    /** The model is held by reference: updates through the controller are seen by every holder. */
    const model: Student
    const view: StudentView

    constructor (model: Student, view: StudentView)
      ensures this.model == model && this.view == view
    {
      this.model := model;
      this.view := view;
    }

    /** Reports the old and new name, then writes the name through to the shared model. */
    method SetStudentName(name: string, console: Console)
      modifies model, console
      ensures model.name == name
      ensures model.id == old(model.id) && model.grade == old(model.grade)
      ensures console.lines == old(console.lines) + [NameChangeLine(old(model.name), name)]
    {
      console.lines := console.lines + [NameChangeLine(model.name, name)];
      model.name := name;
    }

    /** Reports the old and new grade, then writes the grade through to the shared model. */
    method SetStudentGrade(grade: string, console: Console)
      modifies model, console
      ensures model.grade == grade
      ensures model.id == old(model.id) && model.name == old(model.name)
      ensures console.lines == old(console.lines) + [GradeChangeLine(old(model.grade), grade)]
    {
      console.lines := console.lines + [GradeChangeLine(model.grade, grade)];
      model.grade := grade;
    }

    function GetStudentId(): string
      reads model
    {
      model.id
    }

    function GetStudentName(): string
      reads model
    {
      model.name
    }

    function GetStudentGrade(): string
      reads model
    {
      model.grade
    }

    /** Announces the refresh, then has the view print the model's current id, name and grade. */
    method UpdateView(console: Console)
      modifies console
      ensures console.lines == old(console.lines) + [InstructingView] + DetailsLines(model.id, model.name, model.grade)
    {
      console.lines := console.lines + [InstructingView];
      view.DisplayStudentDetails(model.id, model.name, model.grade, console);
    }
  }

  /**
   * A name and a grade set through the controller are what its getters and the caller's
   * own reference to the student then see, the id never changes, and the view shows them.
   */
  method SetThenShow(student: Student, controller: StudentController, console: Console, name: string, grade: string)
    requires controller.model == student
    modifies student, console
    ensures student.name == name && student.grade == grade && student.id == old(student.id)
    ensures controller.GetStudentName() == name && controller.GetStudentGrade() == grade
    ensures controller.GetStudentId() == old(student.id)
    ensures |console.lines| >= 5
    ensures ReadDetails(console.lines[|console.lines| - 5..]) == Some((old(student.id), name, grade))
  {
    controller.SetStudentName(name, console);
    controller.SetStudentGrade(grade, console);
    controller.UpdateView(console);
    var shown := console.lines[|console.lines| - 5..];
    assert shown == DetailsLines(student.id, name, grade);
    DetailsRoundTrip(student.id, name, grade);
  }
}
