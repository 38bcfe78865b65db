/** The record builder: one row of seventeen named fields, in the column order
    the classifier was trained on.  The record is a column list beside a row
    of values, looked up by column name; where a name occurred twice the
    model would resolve it to the first match (the column list has no such
    name). */
module Record {
  import opened Encoding

  datatype Option<T> = None | Some(value: T)

  /** One cell of the row: the Python values that reach the data frame are
      integers, floats or strings. */
  datatype Value = Int(i: int) | Real(x: real) | Text(s: string)

  /** The raw answers of one submission, before encoding.  Numbers come from
      number inputs and sliders; the rest are the strings the widgets return. */
  datatype StudentForm = StudentForm(
    id: int,
    gender: string,
    age: int,
    city: string,
    profession: string,
    academicPressure: real,
    workPressure: real,
    cgpa: real,
    studySatisfaction: real,
    jobSatisfaction: real,
    sleepDuration: string,
    dietaryHabits: string,
    degree: string,
    suicidalThoughts: string,
    studyHours: int,
    financialStress: int,
    familyHistory: string
  )

  /** The seventeen attributes of the training schema, with no order implied. */
  datatype Field =
    | Id | Gender | Age | City | Profession | AcademicPressure | WorkPressure
    | Cgpa | StudySatisfaction | JobSatisfaction | SleepDuration | DietaryHabits
    | Degree | SuicidalThoughts | StudyHours | FinancialStress | FamilyHistory
  {
    /** The column header the classifier knows the attribute by. */
    function Name(): string {
      match this
      case Id => "id"
      case Gender => "Gender"
      case Age => "Age"
      case City => "City"
      case Profession => "Profession"
      case AcademicPressure => "Academic Pressure"
      case WorkPressure => "Work Pressure"
      case Cgpa => "CGPA"
      case StudySatisfaction => "Study Satisfaction"
      case JobSatisfaction => "Job Satisfaction"
      case SleepDuration => "Sleep Duration"
      case DietaryHabits => "Dietary Habits"
      case Degree => "Degree"
      case SuicidalThoughts => "Have you ever had suicidal thoughts ?"
      case StudyHours => "Work/Study Hours"
      case FinancialStress => "Financial Stress"
      case FamilyHistory => "Family History of Mental Illness"
    }
  }

  /** Reference meaning of the schema: the encoded value a form supplies for
      each attribute. */
  function FormValue(f: StudentForm, field: Field): Value {
    match field
    case Id => Int(f.id)
    case Gender => Int(EncodeGender(f.gender))
    case Age => Int(f.age)
    case City => Text(f.city)
    case Profession => Text(f.profession)
    case AcademicPressure => Real(f.academicPressure)
    case WorkPressure => Real(f.workPressure)
    case Cgpa => Real(f.cgpa)
    case StudySatisfaction => Real(f.studySatisfaction)
    case JobSatisfaction => Real(f.jobSatisfaction)
    case SleepDuration => Real(DecodeSleep(f.sleepDuration))
    case DietaryHabits => Int(EncodeDiet(f.dietaryHabits))
    case Degree => Text(f.degree)
    case SuicidalThoughts => Int(EncodeSuicidalThoughts(f.suicidalThoughts))
    case StudyHours => Int(f.studyHours)
    case FinancialStress => Int(f.financialStress)
    case FamilyHistory => Int(EncodeFamilyHistory(f.familyHistory))
  }

  /** A one-row data frame. */
  datatype Frame = Frame(columns: seq<string>, row: seq<Value>)

  /** The column list, in the order the record builder writes it. */
  const Columns: seq<string> := [
    "id", "Gender", "Age", "City", "Profession", "Academic Pressure",
    "Work Pressure", "CGPA", "Study Satisfaction", "Job Satisfaction",
    "Sleep Duration", "Dietary Habits", "Degree",
    "Have you ever had suicidal thoughts ?", "Work/Study Hours",
    "Financial Stress", "Family History of Mental Illness"
  ]

  /** The position of the first column called `name`, if there is one. */
  function IndexOf(cols: seq<string>, name: string): (r: Option<nat>)
    ensures r.None? <==> name !in cols
    ensures r.Some? ==> r.value < |cols| && cols[r.value] == name
    ensures r.Some? ==> forall j :: 0 <= j < r.value ==> cols[j] != name
  {
    if cols == [] then None
    else if cols[0] == name then Some(0)
    else match IndexOf(cols[1..], name)
      case None => None
      case Some(k) => Some(k + 1)
  }

  /** Column access by name: the cell under the column of that name (the
      first match, should the name occur twice, where a data frame would
      return every match), or None (a KeyError) when the
      frame has no such column. */
  function Lookup(frame: Frame, name: string): (v: Option<Value>)
    ensures v.Some? ==> name in frame.columns
    ensures name in frame.columns && |frame.row| == |frame.columns| ==> v.Some?
  {
    match IndexOf(frame.columns, name)
    case None => None
    case Some(i) => if i < |frame.row| then Some(frame.row[i]) else None
  }

  /** In a frame whose column names are distinct, the cell at position i is
      the one found under column i's name. */
  lemma LookupAtPosition(frame: Frame, i: nat)
    requires |frame.row| == |frame.columns|
    requires forall a, b :: 0 <= a < b < |frame.columns| ==> frame.columns[a] != frame.columns[b]
    requires i < |frame.columns|
    ensures Lookup(frame, frame.columns[i]) == Some(frame.row[i])
  {
  }

  /** No column name occurs twice, so lookup by name is unambiguous. */
  lemma ColumnsDistinct()
    ensures |Columns| == 17
    ensures forall i, j :: 0 <= i < j < |Columns| ==> Columns[i] != Columns[j]
  {
  }

  /** Assembles the row in the column list's order, one value per column. */
  function BuildRecord(f: StudentForm): (r: Frame)
    ensures r.columns == Columns
    ensures |r.row| == |r.columns| == 17
  {
    Frame(Columns, [
      Int(f.id), Int(EncodeGender(f.gender)), Int(f.age), Text(f.city), Text(f.profession),
      Real(f.academicPressure), Real(f.workPressure), Real(f.cgpa),
      Real(f.studySatisfaction), Real(f.jobSatisfaction),
      Real(DecodeSleep(f.sleepDuration)), Int(EncodeDiet(f.dietaryHabits)), Text(f.degree),
      Int(EncodeSuicidalThoughts(f.suicidalThoughts)), Int(f.studyHours),
      Int(f.financialStress), Int(EncodeFamilyHistory(f.familyHistory))
    ])
  }

  /** Where each attribute sits in the column list: used only to prove that
      the two lists line up. */
  function Position(field: Field): (i: nat)
    ensures i < |Columns| && Columns[i] == field.Name()
  {
    match field
    case Id => 0
    case Gender => 1
    case Age => 2
    case City => 3
    case Profession => 4
    case AcademicPressure => 5
    case WorkPressure => 6
    case Cgpa => 7
    case StudySatisfaction => 8
    case JobSatisfaction => 9
    case SleepDuration => 10
    case DietaryHabits => 11
    case Degree => 12
    case SuicidalThoughts => 13
    case StudyHours => 14
    case FinancialStress => 15
    case FamilyHistory => 16
  }

  /** The column list and the value list line up one to one: looking any
      attribute up by its name in the built record gives the value the form
      supplies for that attribute. */
  lemma RecordLookupByName(f: StudentForm, field: Field)
    ensures Lookup(BuildRecord(f), field.Name()) == Some(FormValue(f, field))
  {
    var r := BuildRecord(f);
    var i := Position(field);
    assert Lookup(r, Columns[i]) == Some(r.row[i]) by {
      ColumnsDistinct();
      LookupAtPosition(r, i);
    }
    RecordFollowsSchema(f, field);
  }

  /** The column list and the value list line up position by position: the
      cell at an attribute's position is that attribute's value (position 10
      the decoded sleep hours, position 13 the suicidal-thoughts flag). */
  lemma RecordFollowsSchema(f: StudentForm, field: Field)
    ensures BuildRecord(f).row[Position(field)] == FormValue(f, field)
    ensures Position(SleepDuration) == 10 && Position(SuicidalThoughts) == 13
  {
  }

  /** Every position of the column list belongs to some attribute, so the
      record has no cell outside the schema. */
  lemma PositionsCoverColumns(i: nat)
    requires i < |Columns|
    ensures exists field: Field :: Position(field) == i
  {
    var fields := [Id, Gender, Age, City, Profession, AcademicPressure, WorkPressure,
      Cgpa, StudySatisfaction, JobSatisfaction, SleepDuration, DietaryHabits,
      Degree, SuicidalThoughts, StudyHours, FinancialStress, FamilyHistory];
    assert Position(fields[i]) == i;
  }

  /** The encoded cells of the record: the four flags are 0 or 1, and the
      sleep cell is one of the four table values, whatever the answers. */
  lemma RecordEncodedCells(f: StudentForm)
    ensures FormValue(f, Gender) in {Int(0), Int(1)}
    ensures FormValue(f, DietaryHabits) in {Int(0), Int(1)}
    ensures FormValue(f, SuicidalThoughts) in {Int(0), Int(1)}
    ensures FormValue(f, FamilyHistory) in {Int(0), Int(1)}
    ensures FormValue(f, SleepDuration) in {Real(4.0), Real(5.5), Real(7.5), Real(9.0)}
  {
  }
}
