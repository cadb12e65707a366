/**
 * The older, in-memory patient page (src/components/PatientManagement.tsx): a list
 * of records with numeric ids, edited, appended to with the next id and deleted in
 * place, its search filter and its status badge colours.
 */
module PatientStore {
  import opened Wrappers
  import opened Text
  import opened Seqs

  /** The age is whatever `parseInt` made of the number field, so it may be NaN. */
  datatype Patient = Patient(
    id: int, name: string, age: Number, gender: string, condition: string,
    status: string, lastVisit: string)

  /** The form holds every field but the id. */
  datatype PatientForm = PatientForm(
    name: string, age: Number, gender: string, condition: string, status: string, lastVisit: string)

  const InitialPatients: seq<Patient> := [
    Patient(1, "Alice Brown", Finite(45), "Female", "Hypertension", "admitted", "2024-03-15"),
    Patient(2, "Bob Wilson", Finite(32), "Male", "Diabetes", "discharged", "2024-03-10"),
    Patient(3, "Carol Smith", Finite(28), "Female", "Pregnancy", "pending", "2024-03-14")]

  /** The blank form; `today` is the date part of the current time, which the page reads. */
  function BlankForm(today: string): PatientForm {
    PatientForm("", Finite(0), "Male", "", "pending", today)
  }

  function FormOf(p: Patient): PatientForm {
    PatientForm(p.name, p.age, p.gender, p.condition, p.status, p.lastVisit)
  }

  // ---------------------------------------------------------------------------
  // Edit, add and delete
  // ---------------------------------------------------------------------------

  /** `{...patient, ...formData}`: every field from the form, the id from the record. */
  function Merge(p: Patient, form: PatientForm): (r: Patient)
    ensures r.id == p.id && FormOf(r) == form
  {
    Patient(p.id, form.name, form.age, form.gender, form.condition, form.status, form.lastVisit)
  }

  /** Every record with the edited id is merged with the form; the others stay. */
  function UpdateById(patients: seq<Patient>, id: int, form: PatientForm): (r: seq<Patient>)
    ensures |r| == |patients|
    ensures forall i :: 0 <= i < |patients| ==>
              r[i] == if patients[i].id == id then Merge(patients[i], form) else patients[i]
  {
    if patients == [] then []
    else [if patients[0].id == id then Merge(patients[0], form) else patients[0]]
         + UpdateById(patients[1..], id, form)
  }

  /** `Math.max(...patients.map(p => p.id))`, defined for a non-empty list only. */
  function MaxId(patients: seq<Patient>): (m: int)
    requires patients != []
    ensures forall i :: 0 <= i < |patients| ==> patients[i].id <= m
    ensures exists i :: 0 <= i < |patients| && patients[i].id == m
  {
    if |patients| == 1 then
      assert patients[0].id == patients[0].id;
      patients[0].id
    else
      var m := MaxId(patients[1..]);
      var j :| 0 <= j < |patients[1..]| && patients[1..][j].id == m;
      assert patients[j + 1].id == m;
      if patients[0].id > m then patients[0].id else m
  }

  /** The id an added patient gets: above every id in the list. */
  function NextId(patients: seq<Patient>): (id: int)
    requires patients != []
    ensures forall i :: 0 <= i < |patients| ==> patients[i].id < id
  {
    MaxId(patients) + 1
  }

  function AddPatient(patients: seq<Patient>, form: PatientForm): (r: seq<Patient>)
    requires patients != []
    ensures |r| == |patients| + 1 && r[..|patients|] == patients
    ensures r[|patients|].id == NextId(patients) && FormOf(r[|patients|]) == form
  {
    var newPatient := Patient(NextId(patients), form.name, form.age, form.gender, form.condition,
                              form.status, form.lastVisit);
    patients + [newPatient]
  }

  /** `patients.filter(patient => patient.id !== id)`. */
  function RemoveById(patients: seq<Patient>, id: int): seq<Patient> {
    Filter(patients, (p: Patient) => p.id != id)
  }

  /** No two records share an id. */
  predicate UniqueIds(patients: seq<Patient>) {
    forall i, j :: 0 <= i < j < |patients| ==> patients[i].id != patients[j].id
  }

  lemma InitialIdsUnique()
    ensures UniqueIds(InitialPatients)
  {
  }

  /** Adding keeps ids unique, since the new id is above all others. */
  lemma AddKeepsIdsUnique(patients: seq<Patient>, form: PatientForm)
    requires patients != [] && UniqueIds(patients)
    ensures UniqueIds(AddPatient(patients, form))
  {
    var r := AddPatient(patients, form);
    forall i, j | 0 <= i < j < |r|
      ensures r[i].id != r[j].id
    {
      if j == |patients| {
        assert r[i] == patients[i];
      } else {
        assert r[i] == patients[i] && r[j] == patients[j];
      }
    }
  }

  /** Editing keeps every id in place, so it keeps them unique. */
  lemma UpdateKeepsIds(patients: seq<Patient>, id: int, form: PatientForm)
    ensures var r := UpdateById(patients, id, form);
      forall i :: 0 <= i < |r| ==> r[i].id == patients[i].id
    ensures UniqueIds(patients) ==> UniqueIds(UpdateById(patients, id, form))
  {
  }

  /** Deletion removes exactly the records with the id and keeps the others, in order. */
  lemma RemoveByIdSpec(patients: seq<Patient>, id: int)
    ensures forall p :: p in RemoveById(patients, id) ==> p.id != id
    ensures IsSubsequence(RemoveById(patients, id), patients)
    ensures forall p: Patient :: p.id != id ==> multiset(RemoveById(patients, id))[p] == multiset(patients)[p]
  {
    FilterIsSubsequence(patients, (p: Patient) => p.id != id);
    forall p: Patient | p.id != id
      ensures multiset(RemoveById(patients, id))[p] == multiset(patients)[p]
    {
      FilterCountOf(patients, (p: Patient) => p.id != id, p);
    }
  }

  /** Any filter keeps ids unique: it only drops records. */
  lemma {:induction false} FilterKeepsUnique(patients: seq<Patient>, keep: Patient -> bool)
    requires UniqueIds(patients)
    ensures UniqueIds(Filter(patients, keep))
  {
    if patients != [] {
      var tail := patients[1..];
      var t := Filter(tail, keep);
      FilterKeepsUnique(tail, keep);
      if keep(patients[0]) {
        var r := Filter(patients, keep);
        assert r == [patients[0]] + t;
        forall j | 0 <= j < |t|
          ensures patients[0].id != t[j].id
        {
          assert t[j] in t;
          var k :| 0 <= k < |tail| && tail[k] == t[j];
          assert patients[k + 1] == t[j];
        }
        forall i, j | 0 <= i < j < |r|
          ensures r[i].id != r[j].id
        {
          if i > 0 {
            assert r[i] == t[i - 1] && r[j] == t[j - 1];
          } else {
            assert r[j] == t[j - 1];
          }
        }
      }
    }
  }

  /** Deletion keeps ids unique. */
  lemma RemoveKeepsIdsUnique(patients: seq<Patient>, id: int)
    requires UniqueIds(patients)
    ensures UniqueIds(RemoveById(patients, id))
  {
    FilterKeepsUnique(patients, (p: Patient) => p.id != id);
  }

  // ---------------------------------------------------------------------------
  // The filter and the status colours
  // ---------------------------------------------------------------------------

  predicate PatientMatches(p: Patient, term: string) {
    MatchesIgnoringCase(p.name, term) || MatchesIgnoringCase(p.condition, term)
  }

  function FilterPatients(patients: seq<Patient>, term: string): seq<Patient> {
    Filter(patients, (p: Patient) => PatientMatches(p, term))
  }

  /**
   * The search keeps, in order, exactly the patients whose name or condition contains
   * the term, ignoring case; an empty term keeps all.
   */
  lemma FilterPatientsSpec(patients: seq<Patient>, term: string)
    ensures IsSubsequence(FilterPatients(patients, term), patients)
    ensures forall p :: p in FilterPatients(patients, term) <==>
              (&& p in patients
               && (|| MatchesIgnoringCase(p.name, term)
                   || MatchesIgnoringCase(p.condition, term)))
    ensures term == "" ==> FilterPatients(patients, term) == patients
  {
    FilterSpec(patients, (p: Patient) => PatientMatches(p, term));
    if term == "" {
      forall i | 0 <= i < |patients|
        ensures PatientMatches(patients[i], term)
      {
        EmptyTermMatches(patients[i].name);
      }
    }
  }

  const Gray := "bg-gray-100 text-gray-800"

  /** `getStatusColor`: one badge class per known status, gray for anything else. */
  function StatusColor(status: string): (c: string)
    ensures c == Gray <==> status !in {"admitted", "discharged", "pending"}
  {
    if status == "admitted" then "bg-blue-100 text-blue-800"
    else if status == "discharged" then "bg-green-100 text-green-800"
    else if status == "pending" then "bg-yellow-100 text-yellow-800"
    else Gray
  }

  /** The three statuses get three different classes. */
  lemma StatusColorsDistinct()
    ensures |{StatusColor("admitted"), StatusColor("discharged"), StatusColor("pending")}| == 3
  {
    assert StatusColor("admitted")[3] == 'b';
    assert StatusColor("discharged")[3] == 'g';
    assert StatusColor("pending")[3] == 'y';
  }

  // ---------------------------------------------------------------------------
  // The page component
  // ---------------------------------------------------------------------------

  class PatientManagementPage {
    var patients: seq<Patient>
    var searchTerm: string
    var isModalOpen: bool
    var editingPatient: Option<Patient>
    var formData: PatientForm

    /** The page keeps its ids unique. */
    ghost predicate Valid()
      reads this
    {
      UniqueIds(patients)
    }

    constructor (today: string)
      ensures Valid()
      ensures patients == InitialPatients && searchTerm == "" && !isModalOpen
      ensures editingPatient == None && formData == BlankForm(today)
    {
      patients := InitialPatients;
      searchTerm := "";
      isModalOpen := false;
      editingPatient := None;
      formData := BlankForm(today);
      InitialIdsUnique();
    }

    /** `handleOpenModal`: edit the patient's fields, or a blank form dated today. */
    method OpenModal(patient: Option<Patient>, today: string)
      modifies this
      ensures isModalOpen && editingPatient == patient
      ensures formData == (if patient.Some? then FormOf(patient.value) else BlankForm(today))
      ensures patients == old(patients) && searchTerm == old(searchTerm)
    {
      if patient.Some? {
        editingPatient := patient;
        formData := FormOf(patient.value);
      } else {
        editingPatient := None;
        formData := BlankForm(today);
      }
      isModalOpen := true;
    }

    method CloseModal()
      modifies this
      ensures !isModalOpen && editingPatient == None
      ensures patients == old(patients) && searchTerm == old(searchTerm) && formData == old(formData)
    {
      isModalOpen := false;
      editingPatient := None;
    }

    /**
     * `handleSubmit`: merge the form into the edited record, or append it under the
     * next id (which needs a non-empty list), then close the modal.
     */
    method HandleSubmit()
      requires Valid()
      requires editingPatient.Some? || patients != []
      modifies this
      ensures Valid()
      ensures patients == (if old(editingPatient).Some?
                           then UpdateById(old(patients), old(editingPatient).value.id, old(formData))
                           else AddPatient(old(patients), old(formData)))
      ensures !isModalOpen && editingPatient == None
      ensures searchTerm == old(searchTerm) && formData == old(formData)
    {
      if editingPatient.Some? {
        UpdateKeepsIds(patients, editingPatient.value.id, formData);
        patients := UpdateById(patients, editingPatient.value.id, formData);
      } else {
        AddKeepsIdsUnique(patients, formData);
        var newPatient := Patient(MaxId(patients) + 1, formData.name, formData.age, formData.gender,
                                  formData.condition, formData.status, formData.lastVisit);
        patients := patients + [newPatient];
      }
      CloseModal();
    }

    /** `handleDelete`: after confirmation, drop every record with the id. */
    method HandleDelete(id: int, confirmed: bool)
      requires Valid()
      modifies this
      ensures Valid()
      ensures patients == (if confirmed then RemoveById(old(patients), id) else old(patients))
      ensures isModalOpen == old(isModalOpen) && editingPatient == old(editingPatient)
      ensures searchTerm == old(searchTerm) && formData == old(formData)
    {
      if confirmed {
        RemoveKeepsIdsUnique(patients, id);
        patients := RemoveById(patients, id);
      }
    }
  }
}
