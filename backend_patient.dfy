/**
 * The patient records of the back end (BE/modules/patient.py): the gender enumeration,
 * the medical history with its comma-joined allergies, the partial update of a patient,
 * its dictionary form and the lookup of a patient's details. The SQL statements are
 * kept as values (`Update`) and the tables as sequences of rows; no database is run.
 */
module BackendPatient {
  import opened Wrappers
  import opened Text
  import PatientAdmin

  // ---------------------------------------------------------------------------
  // PatientGender
  // ---------------------------------------------------------------------------

  datatype Gender = Male | Female | Other

  /** `PatientGender.X.value`. */
  function GenderValue(g: Gender): string {
    match g
    case Male => "Male"
    case Female => "Female"
    case Other => "Other"
  }

  const ValueError := "ValueError"
  const AttributeError := "AttributeError"

  /** `PatientGender(value)`: the member with that value, or a `ValueError`. */
  function GenderOf(value: string): (r: Result<Gender>)
    ensures r.Success? <==> value in {"Male", "Female", "Other"}
    ensures r.Success? ==> GenderValue(r.value) == value
    ensures r.Failure? ==> r.error == ValueError
  {
    if value == "Male" then Success(Male)
    else if value == "Female" then Success(Female)
    else if value == "Other" then Success(Other)
    else Failure(ValueError)
  }

  /** Every member is found again from its value. */
  lemma GenderRoundTrip(g: Gender)
    ensures GenderOf(GenderValue(g)) == Success(g)
  {
  }

  /** The admin form offers `Male`, `Female` and `OTHER`; the last is not a value of the enumeration. */
  lemma FormOtherRejected()
    ensures GenderOf(PatientAdmin.GenderOptions[0]) == Success(Male)
    ensures GenderOf(PatientAdmin.GenderOptions[1]) == Success(Female)
    ensures GenderOf(PatientAdmin.GenderOptions[2]).Failure?
  {
    assert PatientAdmin.GenderOptions[2] == "OTHER";
  }

  // ---------------------------------------------------------------------------
  // Allergies: stored as one comma-joined column
  // ---------------------------------------------------------------------------

  /** `",".join(allergies)`. */
  function StoreAllergies(allergies: seq<string>): (column: string)
    ensures |allergies| == 1 ==> column == allergies[0]
    ensures |allergies| >= 2 ==> ',' in column
  {
    var column := Join(allergies, ",");
    if |allergies| >= 2 then
      assert column == allergies[0] + "," + Join(allergies[1..], ",");
      assert column[|allergies[0]|] == ',';
      column
    else column
  }

  /** `column.split(",") if column else []`, with a NULL column as `None`. */
  function ReadAllergies(column: Option<string>): (allergies: seq<string>)
    ensures column.None? || column == Some("") ==> allergies == []
    ensures column.Some? && column.value != "" ==> |allergies| >= 1 && StoreAllergies(allergies) == column.value
    ensures forall a :: a in allergies ==> ',' !in a
  {
    if column.None? || column.value == "" then []
    else
      SplitPiecesFree(column.value, ',');
      Split(column.value, ",")
  }

  /** A list without commas inside its elements is read back as written, unless it is `[""]`. */
  lemma AllergiesRoundTrip(allergies: seq<string>)
    requires forall i :: 0 <= i < |allergies| ==> ',' !in allergies[i]
    requires allergies != [""]
    ensures ReadAllergies(Some(StoreAllergies(allergies))) == allergies
  {
    if allergies != [] {
      assert StoreAllergies(allergies) != "" by {
        if |allergies| == 1 {
          assert allergies[0] != "";
        }
      }
      forall i | 0 <= i < |allergies|
        ensures SeparatorFree(allergies[i], ",")
      {
        CharFree(allergies[i], ',');
      }
      SplitJoin(allergies, ",");
    }
  }

  /** Every non-empty column is rewritten unchanged by a read followed by a write. */
  lemma ColumnRoundTrip(column: string)
    requires column != ""
    ensures StoreAllergies(ReadAllergies(Some(column))) == column
  {
  }

  /** A single empty allergy is lost. */
  lemma EmptyAllergyLost()
    ensures ReadAllergies(Some(StoreAllergies([""]))) == []
  {
  }

  /** An allergy with a comma comes back as two. */
  lemma CommaSplitsAllergy()
    ensures ReadAllergies(Some(StoreAllergies(["a,b"]))) == ["a", "b"]
  {
    var s := "a,b";
    assert StoreAllergies(["a,b"]) == s;
    SplitJoin(["a", "b"], ",");
    assert Join(["a", "b"], ",") == "a" + "," + Join(["b"], ",");
    assert Join(["a", "b"], ",") == s;
  }

  // ---------------------------------------------------------------------------
  // Records and their dictionary form
  // ---------------------------------------------------------------------------

  /** The columns an UPDATE sets: `name`, `contact_info`, `gender`, `date_of_birth` of `Patient`, `condition` and `allergies` of `MedicalHistory`. */
  datatype PatientColumn = NameColumn | ContactInfoColumn | GenderColumn | DateOfBirthColumn
  datatype HistoryColumn = ConditionColumn | AllergiesColumn

  /** One SQL UPDATE: the column set, its new value, and the key of the row (`patient_id` or `history_id`). */
  datatype Update =
    | SetPatient(column: PatientColumn, value: string, patientId: string)
    | SetHistory(historyColumn: HistoryColumn, value: string, historyId: string)

  datatype HistoryRecord = HistoryRecord(historyId: string, patientId: string, condition: string, allergies: seq<string>)

  /** The `gender` attribute: an enumeration member, or the raw text `update_patient_info` stores. */
  datatype GenderField = Enum(gender: Gender) | Raw(text: string)

  datatype PatientRecord = PatientRecord(patientId: string, name: string, gender: GenderField,
                                         dateOfBirth: string, contactInfo: string,
                                         history: Option<HistoryRecord>)

  /** The values a dictionary holds: strings, the allergy list, `None`, and the history's own dictionary. */
  datatype PyValue = PStr(s: string) | PList(items: seq<string>) | PNone | PDict(fields: map<string, PyValue>)

  type Dict = map<string, PyValue>

  /** `medical_history.__dict__`. */
  function HistoryDict(h: HistoryRecord): (d: Dict)
    ensures d.Keys == {"history_id", "patient_id", "condition", "allergies"}
    ensures d["allergies"] == PList(h.allergies) && d["condition"] == PStr(h.condition)
    ensures d["history_id"] == PStr(h.historyId) && d["patient_id"] == PStr(h.patientId)
  {
    map["history_id" := PStr(h.historyId), "patient_id" := PStr(h.patientId),
        "condition" := PStr(h.condition), "allergies" := PList(h.allergies)]
  }

  const PatientKeys := {"patient_id", "name", "gender", "date_of_birth", "contact_info", "medical_history"}

  /** `to_dict`: `gender.value` fails on a raw text; the history is `None` when absent. */
  function PatientDict(p: PatientRecord): (r: Result<Dict>)
    ensures r.Failure? <==> p.gender.Raw?
    ensures r.Failure? ==> r.error == AttributeError
    ensures r.Success? ==>
              && r.value.Keys == PatientKeys
              && r.value["gender"] == PStr(GenderValue(p.gender.gender))
              && r.value["patient_id"] == PStr(p.patientId) && r.value["name"] == PStr(p.name)
              && r.value["date_of_birth"] == PStr(p.dateOfBirth)
              && r.value["contact_info"] == PStr(p.contactInfo)
              && (r.value["medical_history"] == PNone <==> p.history.None?)
              && (p.history.Some? ==> r.value["medical_history"] == PDict(HistoryDict(p.history.value)))
  {
    match p.gender
    case Raw(_) => Failure(AttributeError)
    case Enum(g) =>
      Success(map["patient_id" := PStr(p.patientId), "name" := PStr(p.name),
                  "gender" := PStr(GenderValue(g)), "date_of_birth" := PStr(p.dateOfBirth),
                  "contact_info" := PStr(p.contactInfo),
                  "medical_history" := if p.history.Some? then PDict(HistoryDict(p.history.value)) else PNone])
  }

  // ---------------------------------------------------------------------------
  // MedicalHistory and Patient objects
  // ---------------------------------------------------------------------------

  /** Python truthiness of an optional string argument. */
  predicate Truthy(v: Option<string>) {
    v.Some? && v.value != ""
  }

  class MedicalHistory {
    var historyId: string
    var patientId: string
    var condition: string
    var allergies: seq<string>

    constructor(historyId: string, patientId: string, condition: string, allergies: seq<string>)
      ensures this.historyId == historyId && this.patientId == patientId
      ensures this.condition == condition && this.allergies == allergies
    {
      this.historyId := historyId;
      this.patientId := patientId;
      this.condition := condition;
      this.allergies := allergies;
    }

    function Snapshot(): (h: HistoryRecord)
      reads this
      ensures h.allergies == allergies && h.condition == condition
      ensures h.historyId == historyId && h.patientId == patientId
    {
      HistoryRecord(historyId, patientId, condition, allergies)
    }

    /** `update_condition`: one UPDATE of the row, then the attribute. */
    method UpdateCondition(newCondition: string) returns (stmt: Update)
      modifies this
      ensures condition == newCondition
      ensures historyId == old(historyId) && patientId == old(patientId) && allergies == old(allergies)
      ensures stmt == SetHistory(ConditionColumn, newCondition, historyId)
    {
      stmt := SetHistory(ConditionColumn, newCondition, historyId);
      condition := newCondition;
    }

    /** `update_allergies`: the column gets the joined list, the attribute the list itself. */
    method UpdateAllergies(newAllergies: seq<string>) returns (stmt: Update)
      modifies this
      ensures allergies == newAllergies
      ensures historyId == old(historyId) && patientId == old(patientId) && condition == old(condition)
      ensures stmt == SetHistory(AllergiesColumn, StoreAllergies(newAllergies), historyId)
      ensures (forall i :: 0 <= i < |newAllergies| ==> ',' !in newAllergies[i]) && newAllergies != [""]
              ==> ReadAllergies(Some(stmt.value)) == allergies
    {
      stmt := SetHistory(AllergiesColumn, StoreAllergies(newAllergies), historyId);
      allergies := newAllergies;
      if (forall i :: 0 <= i < |newAllergies| ==> ',' !in newAllergies[i]) && newAllergies != [""] {
        AllergiesRoundTrip(newAllergies);
      }
    }
  }

  /** The later of two writes to a column: the second when there is one. */
  function Latest(first: Option<string>, second: Option<string>): Option<string> {
    if second.Some? then second else first
  }

  /**
   * The value a list of updates leaves in one column of the patient's row: the value of
   * the last update of that column, `None` when none updates it.
   */
  function Written(stmts: seq<Update>, column: PatientColumn): Option<string> {
    if stmts == [] then None
    else
      var later := Written(stmts[1..], column);
      var u := stmts[0];
      Latest(if u.SetPatient? && u.column == column then Some(u.value) else None, later)
  }

  /** Running two lists of updates in turn: the second list's write to a column wins. */
  lemma {:induction false} WrittenAppend(a: seq<Update>, b: seq<Update>, column: PatientColumn)
    ensures Written(a + b, column) == Latest(Written(a, column), Written(b, column))
  {
    if a == [] {
      assert a + b == b;
    } else {
      assert (a + b)[0] == a[0];
      assert (a + b)[1..] == a[1..] + b;
      WrittenAppend(a[1..], b, column);
    }
  }

  lemma Written4(a: seq<Update>, b: seq<Update>, c: seq<Update>, d: seq<Update>, column: PatientColumn)
    ensures Written(a + b + c + d, column)
            == Latest(Latest(Latest(Written(a, column), Written(b, column)), Written(c, column)), Written(d, column))
  {
    WrittenAppend(a, b, column);
    WrittenAppend(a + b, c, column);
    WrittenAppend(a + b + c, d, column);
  }

  /** The update of one column when its argument is truthy (`present`), no update otherwise. */
  function UpdateIf(present: bool, column: PatientColumn, arg: Option<string>, patientId: string): (stmts: seq<Update>)
    requires present ==> arg.Some?
    ensures forall u :: u in stmts ==> u.SetPatient? && u.patientId == patientId
    ensures Written(stmts, column) == if present then arg else None
    ensures forall c :: c != column ==> Written(stmts, c) == None
    ensures |stmts| <= 1
  {
    if present then [SetPatient(column, arg.value, patientId)] else []
  }

  /** The updates a partial update issues, in order: one per truthy argument. */
  function InfoUpdates(patientId: string, name: Option<string>, contactInfo: Option<string>,
                       gender: Option<string>, dateOfBirth: Option<string>): (stmts: seq<Update>)
    ensures forall u :: u in stmts ==> u.SetPatient? && u.patientId == patientId
    ensures Written(stmts, NameColumn) == if Truthy(name) then name else None
    ensures Written(stmts, ContactInfoColumn) == if Truthy(contactInfo) then contactInfo else None
    ensures Written(stmts, GenderColumn) == if Truthy(gender) then gender else None
    ensures Written(stmts, DateOfBirthColumn) == dateOfBirth
    ensures |stmts| <= 4
  {
    var a := UpdateIf(Truthy(name), NameColumn, name, patientId);
    var b := UpdateIf(Truthy(contactInfo), ContactInfoColumn, contactInfo, patientId);
    var c := UpdateIf(Truthy(gender), GenderColumn, gender, patientId);
    var d := UpdateIf(dateOfBirth.Some?, DateOfBirthColumn, dateOfBirth, patientId);
    Written4(a, b, c, d, NameColumn);
    Written4(a, b, c, d, ContactInfoColumn);
    Written4(a, b, c, d, GenderColumn);
    Written4(a, b, c, d, DateOfBirthColumn);
    a + b + c + d
  }

  class Patient {
    var patientId: string
    var name: string
    var gender: GenderField
    var dateOfBirth: string
    var contactInfo: string
    var medicalHistory: MedicalHistory?

    constructor(patientId: string, name: string, gender: Gender, dateOfBirth: string,
                contactInfo: string, medicalHistory: MedicalHistory?)
      ensures this.patientId == patientId && this.name == name && this.gender == Enum(gender)
      ensures this.dateOfBirth == dateOfBirth && this.contactInfo == contactInfo
      ensures this.medicalHistory == medicalHistory
    {
      this.patientId := patientId;
      this.name := name;
      this.gender := Enum(gender);
      this.dateOfBirth := dateOfBirth;
      this.contactInfo := contactInfo;
      this.medicalHistory := medicalHistory;
    }

    function Snapshot(): (p: PatientRecord)
      reads this, medicalHistory
      ensures p.patientId == patientId && p.name == name && p.gender == gender
      ensures p.history.Some? <==> medicalHistory != null
    {
      PatientRecord(patientId, name, gender, dateOfBirth, contactInfo,
                    if medicalHistory != null then Some(medicalHistory.Snapshot()) else None)
    }

    /**
     * `update_patient_info` as written: each truthy argument is written to its column and
     * to its attribute; the gender is kept as the raw text it was given. The date of
     * birth is a `date`, so any given one counts.
     */
    method UpdatePatientInfo(name: Option<string>, contactInfo: Option<string>, gender: Option<string>,
                             dateOfBirth: Option<string>) returns (stmts: seq<Update>)
      modifies this
      ensures this.name == if Truthy(name) then name.value else old(this.name)
      ensures this.contactInfo == if Truthy(contactInfo) then contactInfo.value else old(this.contactInfo)
      ensures this.gender == if Truthy(gender) then Raw(gender.value) else old(this.gender)
      ensures this.dateOfBirth == if dateOfBirth.Some? then dateOfBirth.value else old(this.dateOfBirth)
      ensures patientId == old(patientId) && medicalHistory == old(medicalHistory)
      ensures stmts == InfoUpdates(patientId, name, contactInfo, gender, dateOfBirth)
    {
      ghost var patientKey := patientId;
      stmts := [];
      if Truthy(name) {
        stmts := stmts + [SetPatient(NameColumn, name.value, patientId)];
        this.name := name.value;
      }
      assert stmts == UpdateIf(Truthy(name), NameColumn, name, patientKey);
      ghost var ab := stmts;
      if Truthy(contactInfo) {
        stmts := stmts + [SetPatient(ContactInfoColumn, contactInfo.value, patientId)];
        this.contactInfo := contactInfo.value;
      }
      assert stmts == ab + UpdateIf(Truthy(contactInfo), ContactInfoColumn, contactInfo, patientKey);
      ghost var abc := stmts;
      if Truthy(gender) {
        stmts := stmts + [SetPatient(GenderColumn, gender.value, patientId)];
        this.gender := Raw(gender.value);
      }
      assert stmts == abc + UpdateIf(Truthy(gender), GenderColumn, gender, patientKey);
      ghost var abcd := stmts;
      if dateOfBirth.Some? {
        stmts := stmts + [SetPatient(DateOfBirthColumn, dateOfBirth.value, patientId)];
        this.dateOfBirth := dateOfBirth.value;
      }
      assert stmts == abcd + UpdateIf(dateOfBirth.Some?, DateOfBirthColumn, dateOfBirth, patientKey);
    }

    /**
     * The update with the gender converted to the enumeration first: an unknown gender
     * changes nothing, and the patient keeps a dictionary form.
     */
    method UpdatePatientInfoChecked(name: Option<string>, contactInfo: Option<string>, gender: Option<string>,
                                    dateOfBirth: Option<string>) returns (r: Result<seq<Update>>)
      modifies this
      ensures Truthy(gender) && GenderOf(gender.value).Failure? ==>
                r == Failure(ValueError) && this.gender == old(this.gender)
                && this.name == old(this.name) && this.contactInfo == old(this.contactInfo)
                && this.dateOfBirth == old(this.dateOfBirth)
      ensures !(Truthy(gender) && GenderOf(gender.value).Failure?) ==>
                && r == Success(InfoUpdates(patientId, name, contactInfo, gender, dateOfBirth))
                && this.name == (if Truthy(name) then name.value else old(this.name))
                && this.contactInfo == (if Truthy(contactInfo) then contactInfo.value else old(this.contactInfo))
                && this.gender == (if Truthy(gender) then Enum(GenderOf(gender.value).value) else old(this.gender))
                && this.dateOfBirth == (if dateOfBirth.Some? then dateOfBirth.value else old(this.dateOfBirth))
      ensures patientId == old(patientId) && medicalHistory == old(medicalHistory)
      ensures old(this.gender).Enum? ==> this.gender.Enum?
    {
      var checked: Option<Gender> := None;
      if Truthy(gender) {
        var g := GenderOf(gender.value);
        if g.Failure? {
          return Failure(ValueError);
        }
        checked := Some(g.value);
      }
      var stmts := UpdatePatientInfo(name, contactInfo, gender, dateOfBirth);
      if checked.Some? {
        this.gender := Enum(checked.value);
      }
      r := Success(stmts);
    }
  }

  /** A patient built from the database whose gender is then updated no longer has a dictionary form. */
  method RawGenderAfterUpdate() returns (d: Result<Dict>)
    ensures d == Failure(AttributeError)
  {
    var p := new Patient("P001", "Ann", Female, "1990-01-01", "555", null);
    var _ := p.UpdatePatientInfo(None, None, Some("Female"), None);
    d := PatientDict(p.Snapshot());
  }

  /** With the checked update, a valid gender keeps the dictionary form and its value. */
  method CheckedGenderAfterUpdate() returns (d: Result<Dict>)
    ensures d.Success? && "gender" in d.value && d.value["gender"] == PStr("Female")
  {
    var p := new Patient("P001", "Ann", Male, "1990-01-01", "555", null);
    var _ := p.UpdatePatientInfoChecked(None, None, Some("Female"), None);
    d := PatientDict(p.Snapshot());
  }

  // ---------------------------------------------------------------------------
  // get_patient_details
  // ---------------------------------------------------------------------------

  datatype PatientRow = PatientRow(patientId: string, name: string, gender: string,
                                   dateOfBirth: string, contactInfo: string)
  datatype HistoryRow = HistoryRow(historyId: string, patientId: string, condition: string,
                                   allergies: Option<string>)

  /** The column a lookup selects on. */
  datatype Key = ById(patientId: string) | ByName(name: string)

  /** `if patient_id: … elif name: …`: the id wins whenever it is given. */
  function SearchKey(patientId: Option<string>, name: Option<string>): (k: Option<Key>)
    ensures Truthy(patientId) ==> k == Some(ById(patientId.value))
    ensures !Truthy(patientId) && Truthy(name) ==> k == Some(ByName(name.value))
    ensures k.None? <==> !Truthy(patientId) && !Truthy(name)
  {
    if Truthy(patientId) then Some(ById(patientId.value))
    else if Truthy(name) then Some(ByName(name.value))
    else None
  }

  predicate RowMatches(row: PatientRow, key: Key) {
    match key
    case ById(id) => row.patientId == id
    case ByName(n) => row.name == n
  }

  /** `fetchone()` on a selection: the first matching row. */
  function FirstPatient(rows: seq<PatientRow>, key: Key): (r: Option<PatientRow>)
    ensures r.Some? ==> r.value in rows && RowMatches(r.value, key)
    ensures r.None? <==> forall i :: 0 <= i < |rows| ==> !RowMatches(rows[i], key)
  {
    if rows == [] then None
    else if RowMatches(rows[0], key) then Some(rows[0])
    else FirstPatient(rows[1..], key)
  }

  function FirstHistory(rows: seq<HistoryRow>, patientId: string): (r: Option<HistoryRow>)
    ensures r.Some? ==> r.value in rows && r.value.patientId == patientId
    ensures r.None? <==> forall i :: 0 <= i < |rows| ==> rows[i].patientId != patientId
  {
    if rows == [] then None
    else if rows[0].patientId == patientId then Some(rows[0])
    else FirstHistory(rows[1..], patientId)
  }

  datatype Details = Message(text: string) | Found(fields: Dict) | Raised(error: string)

  const NoParameter := "Provide a search parameter (patient_id or name)."
  const NoPatient := "No patient found."
  const NoHistory := "No medical history found."

  /** The record `get_patient_details` builds from a patient row and its history row. */
  function RecordOf(row: PatientRow, gender: Gender, history: HistoryRow): (p: PatientRecord)
    ensures p.history == Some(HistoryRecord(history.historyId, history.patientId, history.condition,
                                            ReadAllergies(history.allergies)))
    ensures p.gender == Enum(gender) && p.patientId == row.patientId
  {
    PatientRecord(row.patientId, row.name, Enum(gender), row.dateOfBirth, row.contactInfo,
                  Some(HistoryRecord(history.historyId, history.patientId, history.condition,
                                     ReadAllergies(history.allergies))))
  }

  /**
   * `get_patient_details` over the two tables: the search parameter, then the patient,
   * then its gender (which may raise), then its history.
   */
  function GetPatientDetails(patients: seq<PatientRow>, histories: seq<HistoryRow>,
                             patientId: Option<string>, name: Option<string>): (d: Details)
    ensures SearchKey(patientId, name).None? <==> d == Message(NoParameter)
    ensures d == Message(NoPatient) <==>
              SearchKey(patientId, name).Some? && FirstPatient(patients, SearchKey(patientId, name).value).None?
    ensures d.Raised? <==>
              && SearchKey(patientId, name).Some?
              && FirstPatient(patients, SearchKey(patientId, name).value).Some?
              && GenderOf(FirstPatient(patients, SearchKey(patientId, name).value).value.gender).Failure?
    ensures d.Raised? ==> d.error == ValueError
    ensures d.Found? ==> d.fields.Keys == PatientKeys || d.fields.Keys == {"patient_id", "message"}
  {
    match SearchKey(patientId, name)
    case None => Message(NoParameter)
    case Some(key) =>
      match FirstPatient(patients, key)
      case None => Message(NoPatient)
      case Some(row) =>
        match GenderOf(row.gender)
        case Failure(e) => Raised(e)
        case Success(gender) =>
          match FirstHistory(histories, row.patientId)
          case None => Found(map["patient_id" := PStr(row.patientId), "message" := PStr(NoHistory)])
          case Some(history) =>
            var p := RecordOf(row, gender, history);
            Found(PatientDict(p).value)
  }

  /** A given id decides the lookup; the name is then ignored. */
  lemma IdBeforeName(patients: seq<PatientRow>, histories: seq<HistoryRow>, patientId: string, name: Option<string>)
    requires patientId != ""
    ensures GetPatientDetails(patients, histories, Some(patientId), name)
            == GetPatientDetails(patients, histories, Some(patientId), None)
  {
  }

  /** A patient without history answers with its id and a message only. */
  lemma NoHistoryAnswer(patients: seq<PatientRow>, histories: seq<HistoryRow>, patientId: string)
    requires patientId != ""
    requires FirstPatient(patients, ById(patientId)).Some?
    requires GenderOf(FirstPatient(patients, ById(patientId)).value.gender).Success?
    requires forall i :: 0 <= i < |histories| ==> histories[i].patientId != patientId
    ensures GetPatientDetails(patients, histories, Some(patientId), None)
            == Found(map["patient_id" := PStr(patientId), "message" := PStr(NoHistory)])
  {
  }

  /** A row written with the form's `OTHER` makes the lookup raise, before its history is read. */
  lemma StoredOtherRaises(row: PatientRow, histories: seq<HistoryRow>)
    requires row.patientId != "" && row.gender == PatientAdmin.GenderOptions[2]
    ensures GetPatientDetails([row], histories, Some(row.patientId), None) == Raised(ValueError)
  {
    FormOtherRejected();
  }

  /** Allergies stored by `update_allergies` come back in the details as they were given. */
  lemma StoredAllergiesReadBack(row: PatientRow, history: HistoryRow, allergies: seq<string>)
    requires row.patientId != "" && row.gender in {"Male", "Female", "Other"}
    requires history.patientId == row.patientId
    requires history.allergies == Some(StoreAllergies(allergies))
    requires forall i :: 0 <= i < |allergies| ==> ',' !in allergies[i]
    requires allergies != [""]
    ensures var d := GetPatientDetails([row], [history], Some(row.patientId), None);
            d.Found? && "medical_history" in d.fields && d.fields["medical_history"].PDict?
            && d.fields["medical_history"].fields["allergies"] == PList(allergies)
  {
    AllergiesRoundTrip(allergies);
  }
}
