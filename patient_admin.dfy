/**
 * The admin patient page (frontend/src/components/Admin/PatientManagement.tsx):
 * allergy parsing, the edit-submission dispatcher, the next `P###` identifier
 * and the search filter.
 */
module PatientAdmin {
  import opened Wrappers
  import opened Text
  import opened Seqs
  import opened Http

  datatype MedicalHistory = MedicalHistory(historyId: string, patientId: string, condition: string, allergies: seq<string>)

  datatype Patient = Patient(
    patientId: string, name: string, dateOfBirth: string, gender: string,
    contactInfo: string, medicalHistory: MedicalHistory)

  /** The modal form: allergies are typed as one comma-separated text. */
  datatype PatientForm = PatientForm(
    patientId: string, name: string, dateOfBirth: string, gender: string,
    contactInfo: string, condition: string, allergies: string)

  /** The list refresh that `fetchPatients` issues. */
  const ListRequest := Request(GET, Patients, None)

  /** The gender choices of the form's select box. */
  const GenderOptions := ["Male", "Female", "OTHER"]

  // ---------------------------------------------------------------------------
  // Allergy parsing
  // ---------------------------------------------------------------------------

  /** Trim every piece and drop the ones that become empty. */
  function TrimmedNonEmpty(pieces: seq<string>): (r: seq<string>)
    ensures |r| <= |pieces|
    ensures forall a :: a in r ==> a != [] && IsTrimmed(a)
  {
    if pieces == [] then []
    else
      var t := Trim(pieces[0]);
      var head := if t != "" then [t] else [];
      var rest := TrimmedNonEmpty(pieces[1..]);
      assert forall a :: a in head ==> a != [] && IsTrimmed(a);
      assert forall a :: a in head + rest ==> a in head || a in rest;
      head + rest
  }

  /** Every item kept is a part of one of the pieces. */
  lemma {:induction false} TrimmedNonEmptyFromPieces(pieces: seq<string>)
    ensures forall a :: a in TrimmedNonEmpty(pieces) ==> exists j :: 0 <= j < |pieces| && Contains(pieces[j], a)
  {
    if pieces != [] {
      var t := Trim(pieces[0]);
      var rest := TrimmedNonEmpty(pieces[1..]);
      TrimmedNonEmptyFromPieces(pieces[1..]);
      forall a | a in TrimmedNonEmpty(pieces)
        ensures exists j :: 0 <= j < |pieces| && Contains(pieces[j], a)
      {
        if a in rest {
          var j :| 0 <= j < |pieces[1..]| && Contains(pieces[1..][j], a);
          assert pieces[j + 1] == pieces[1..][j];
        } else {
          assert a == t && Contains(pieces[0], a);
        }
      }
    }
  }

  lemma ContainsKeepsAbsentChar(p: string, a: string, c: char)
    requires Contains(p, a) && c !in p
    ensures c !in a
  {
    var i :| 0 <= i <= |p| && OccursAt(p, i, a);
    forall k | 0 <= k < |a|
      ensures a[k] != c
    {
      assert p[i + k] == a[k];
    }
  }

  /**
   * `formData.allergies.split(',').map(item => item.trim()).filter(item => item)`:
   * every allergy is non-empty, has no white space at its ends and no comma.
   */
  function ParseAllergies(raw: string): (r: seq<string>)
    ensures forall a :: a in r ==> a != "" && IsTrimmed(a) && ',' !in a
  {
    var pieces := Split(raw, ",");
    var r := TrimmedNonEmpty(pieces);
    SplitPiecesFree(raw, ',');
    TrimmedNonEmptyFromPieces(pieces);
    forall a | a in r
      ensures ',' !in a
    {
      var j :| 0 <= j < |pieces| && Contains(pieces[j], a);
      ContainsKeepsAbsentChar(pieces[j], a, ',');
    }
    r
  }

  /** An allergy list that `ParseAllergies` could have produced. */
  predicate CleanAllergies(xs: seq<string>) {
    forall i :: 0 <= i < |xs| ==> xs[i] != "" && IsTrimmed(xs[i]) && ',' !in xs[i]
  }

  /** White space in front of the text changes nothing. */
  lemma ParseAllergiesLeadingSpace(s: string)
    ensures ParseAllergies(" " + s) == ParseAllergies(s)
  {
    var p := Split(s, ",");
    var q := Split(" " + s, ",");
    assert q == [" " + p[0]] + p[1..] by {
      assert !OccursAt(" " + s, 0, ",");
      SplitAfterFreePrefix(" ", s, ",");
    }
    assert Trim(q[0]) == Trim(p[0]) by {
      TrimIgnoresLeadingSpace(" ", p[0]);
    }
    assert q[1..] == p[1..];
  }

  /** The text before the first comma contributes its trimmed self, unless that is empty. */
  lemma ParseAllergiesCons(x: string, t: string)
    requires ',' !in x
    ensures ParseAllergies(x + "," + t) ==
            (if Trim(x) != "" then [Trim(x)] else []) + ParseAllergies(t)
  {
    var s := x + ("," + t);
    assert x + "," + t == s;
    forall i | 0 <= i < |x|
      ensures !OccursAt(s, i, ",")
    {
      assert s[i..i + 1] == [x[i]];
    }
    SplitAfterFreePrefix(x, "," + t, ",");
    assert OccursAt("," + t, 0, ",");
    assert ("," + t)[1..] == t;
    assert Split("," + t, ",") == [""] + Split(t, ",");
    assert x + "" == x;
  }

  lemma ParseAllergiesSingle(x: string)
    requires x != "" && IsTrimmed(x) && ',' !in x
    ensures ParseAllergies(x) == [x]
  {
    CharFree(x, ',');
    SplitJoin([x], ",");
    assert Split(x, ",") == [x];
    TrimOfTrimmed(x);
  }

  /** Parsing the `", "`-joined text of a clean list gives the list back. */
  lemma {:induction false} ParseAllergiesOfJoin(xs: seq<string>)
    requires CleanAllergies(xs)
    ensures ParseAllergies(Join(xs, ", ")) == xs
  {
    if xs == [] {
      assert Split("", ",") == [""];
    } else if |xs| == 1 {
      ParseAllergiesSingle(xs[0]);
    } else {
      var x := xs[0];
      var j := Join(xs[1..], ", ");
      assert Join(xs, ", ") == x + "," + (" " + j);
      ParseAllergiesCons(x, " " + j);
      ParseAllergiesLeadingSpace(j);
      TrimOfTrimmed(x);
      ParseAllergiesOfJoin(xs[1..]);
    }
  }

  /** Parsing is idempotent: re-parsing the joined result of a parse changes nothing. */
  lemma ParseAllergiesIdempotent(s: string)
    ensures ParseAllergies(Join(ParseAllergies(s), ", ")) == ParseAllergies(s)
  {
    var r := ParseAllergies(s);
    assert CleanAllergies(r) by {
      forall i | 0 <= i < |r|
        ensures r[i] != "" && IsTrimmed(r[i]) && ',' !in r[i]
      {
        assert r[i] in r;
      }
    }
    ParseAllergiesOfJoin(r);
  }

  /** The placeholder of the allergies field parses to its three allergies. */
  lemma ParseAllergiesPlaceholder()
    ensures ParseAllergies("Peanuts, Dust, Penicillin") == ["Peanuts", "Dust", "Penicillin"]
  {
    PlaceholderIsJoin();
    PlaceholderAllergiesClean();
    ParseAllergiesOfJoin(["Peanuts", "Dust", "Penicillin"]);
  }

  lemma PlaceholderIsJoin()
    ensures Join(["Peanuts", "Dust", "Penicillin"], ", ") == "Peanuts, Dust, Penicillin"
  {
    var xs := ["Peanuts", "Dust", "Penicillin"];
    assert Join(xs[2..], ", ") == "Penicillin";
    assert Join(xs[1..], ", ") == "Dust" + ", " + "Penicillin";
  }

  lemma PlaceholderAllergiesClean()
    ensures CleanAllergies(["Peanuts", "Dust", "Penicillin"])
  {
    assert IsTrimmed("Peanuts") && IsTrimmed("Dust") && IsTrimmed("Penicillin");
  }

  // ---------------------------------------------------------------------------
  // The request plan of handleSubmit
  // ---------------------------------------------------------------------------

  /** `{...formData, allergies: allergiesArray}`. */
  function FullBody(form: PatientForm, allergies: seq<string>): Object {
    map[
      "patient_id" := Str(form.patientId), "name" := Str(form.name),
      "date_of_birth" := Str(form.dateOfBirth), "gender" := Str(form.gender),
      "contact_info" := Str(form.contactInfo), "condition" := Str(form.condition),
      "allergies" := StrList(allergies)]
  }

  function ConditionBody(form: PatientForm): Object {
    map["patient_id" := Str(form.patientId), "condition" := Str(form.condition)]
  }

  function AllergiesBody(form: PatientForm, allergies: seq<string>): Object {
    map["patient_id" := Str(form.patientId), "new_allergies" := StrList(allergies)]
  }

  /** The mutating requests one submission issues, in order. */
  function SubmitRequests(form: PatientForm, isEdit: bool): seq<Request> {
    PlanRequests(form, ParseAllergies(form.allergies), isEdit)
  }

  /** The same plan for an already parsed allergy list. */
  function PlanRequests(form: PatientForm, allergies: seq<string>, isEdit: bool): seq<Request> {
    if !isEdit then [Request(POST, PatientAdd, Some(FullBody(form, allergies)))]
    else ConditionStep(form) + AllergiesStep(form, allergies) + [InfoRequest(form, allergies)]
  }

  function ConditionStep(form: PatientForm): seq<Request> {
    if form.condition != "" then [Request(PUT, PatientUpdateCondition, Some(ConditionBody(form)))] else []
  }

  function AllergiesStep(form: PatientForm, allergies: seq<string>): seq<Request> {
    if |allergies| > 0 then [Request(PUT, PatientUpdateAllergies, Some(AllergiesBody(form, allergies)))] else []
  }

  function InfoRequest(form: PatientForm, allergies: seq<string>): Request {
    Request(PUT, PatientUpdateInfo, Some(FullBody(form, allergies)))
  }

  /** Some request of `reqs` goes to endpoint `e`. */
  predicate Sends(reqs: seq<Request>, e: Endpoint) {
    exists i :: 0 <= i < |reqs| && reqs[i].endpoint == e
  }

  /**
   * What the log records for a sequence of calls each in its own try/catch: the call,
   * then the list refresh when the call did not reject.
   */
  function Trace(reqs: seq<Request>, rejects: Request -> bool): seq<Request> {
    if reqs == [] then []
    else [reqs[0]] + (if rejects(reqs[0]) then [] else [ListRequest]) + Trace(reqs[1..], rejects)
  }

  predicate AllRejected(reqs: seq<Request>, rejects: Request -> bool) {
    forall i :: 0 <= i < |reqs| ==> rejects(reqs[i])
  }

  /** The requests of a log that are not list refreshes. */
  function Mutations(log: seq<Request>): seq<Request> {
    Filter(log, (r: Request) => r.verb != GET)
  }

  /**
   * The list shown after the calls `reqs`: each call that did not reject is followed by a
   * refresh answering `listing` of that call, which replaces the list when it succeeds.
   */
  function Refreshed(reqs: seq<Request>, rejects: Request -> bool,
                     listing: Request -> Option<seq<Patient>>, patients0: seq<Patient>): seq<Patient>
    decreases |reqs|
  {
    if reqs == [] then patients0
    else
      var r := reqs[|reqs| - 1];
      if !rejects(r) && listing(r).Some? then listing(r).value
      else Refreshed(reqs[..|reqs| - 1], rejects, listing, patients0)
  }

  /** A call that succeeded and whose refresh returned a list. */
  predicate Refreshes(r: Request, rejects: Request -> bool, listing: Request -> Option<seq<Patient>>) {
    !rejects(r) && listing(r).Some?
  }

  /** With no refresh that succeeded, the old list stays. */
  lemma {:induction false} RefreshedUnchanged(reqs: seq<Request>, rejects: Request -> bool,
                                              listing: Request -> Option<seq<Patient>>, patients0: seq<Patient>)
    requires forall i :: 0 <= i < |reqs| ==> !Refreshes(reqs[i], rejects, listing)
    ensures Refreshed(reqs, rejects, listing, patients0) == patients0
    decreases |reqs|
  {
    if reqs != [] {
      var front := reqs[..|reqs| - 1];
      assert forall i :: 0 <= i < |front| ==> front[i] == reqs[i];
      assert !Refreshes(reqs[|reqs| - 1], rejects, listing);
      RefreshedUnchanged(front, rejects, listing, patients0);
    }
  }

  /**
   * The list shown is the one of the last refresh that succeeded: a refresh that fails
   * after one that succeeded keeps the earlier list.
   */
  lemma {:induction false} RefreshedIsLastSuccess(reqs: seq<Request>, rejects: Request -> bool,
                                                  listing: Request -> Option<seq<Patient>>, patients0: seq<Patient>,
                                                  i: nat)
    requires i < |reqs| && Refreshes(reqs[i], rejects, listing)
    requires forall j :: i < j < |reqs| ==> !Refreshes(reqs[j], rejects, listing)
    ensures Refreshed(reqs, rejects, listing, patients0) == listing(reqs[i]).value
    decreases |reqs|
  {
    var n := |reqs| - 1;
    if i < n {
      var front := reqs[..n];
      assert !Refreshes(reqs[n], rejects, listing);
      assert front[i] == reqs[i];
      assert forall j :: i < j < |front| ==> front[j] == reqs[j];
      RefreshedIsLastSuccess(front, rejects, listing, patients0, i);
    }
  }

  /** A creation is exactly one POST of the whole form, with the allergies parsed. */
  lemma CreateSendsOnePost(form: PatientForm)
    ensures |SubmitRequests(form, false)| == 1
    ensures SubmitRequests(form, false)[0].verb == POST
    ensures SubmitRequests(form, false)[0].endpoint == PatientAdd
    ensures SubmitRequests(form, false)[0].body == Some(FullBody(form, ParseAllergies(form.allergies)))
  {
  }

  /** An edit sends the condition update iff the condition is non-empty, with only id and condition. */
  lemma EditConditionRequest(form: PatientForm)
    ensures Sends(SubmitRequests(form, true), PatientUpdateCondition) <==> form.condition != ""
    ensures forall r :: r in SubmitRequests(form, true) && r.endpoint == PatientUpdateCondition ==>
              r.body == Some(ConditionBody(form)) && BodyKeys(r) == {"patient_id", "condition"}
  {
    PlanCondition(form, ParseAllergies(form.allergies));
  }

  lemma PlanCondition(form: PatientForm, a: seq<string>)
    ensures Sends(PlanRequests(form, a, true), PatientUpdateCondition) <==> form.condition != ""
    ensures forall r :: r in PlanRequests(form, a, true) && r.endpoint == PatientUpdateCondition ==>
              r.body == Some(ConditionBody(form)) && BodyKeys(r) == {"patient_id", "condition"}
  {
    if form.condition != "" {
      assert PlanRequests(form, a, true)[0].endpoint == PatientUpdateCondition;
    }
  }

  /** An edit sends the allergy update iff the parsed list is non-empty, with id and the list. */
  lemma EditAllergiesRequest(form: PatientForm)
    ensures Sends(SubmitRequests(form, true), PatientUpdateAllergies) <==> |ParseAllergies(form.allergies)| > 0
    ensures forall r :: r in SubmitRequests(form, true) && r.endpoint == PatientUpdateAllergies ==>
              r.body == Some(AllergiesBody(form, ParseAllergies(form.allergies)))
              && BodyKeys(r) == {"patient_id", "new_allergies"}
  {
    PlanAllergies(form, ParseAllergies(form.allergies));
  }

  lemma PlanAllergies(form: PatientForm, a: seq<string>)
    ensures Sends(PlanRequests(form, a, true), PatientUpdateAllergies) <==> |a| > 0
    ensures forall r :: r in PlanRequests(form, a, true) && r.endpoint == PatientUpdateAllergies ==>
              r.body == Some(AllergiesBody(form, a)) && BodyKeys(r) == {"patient_id", "new_allergies"}
  {
    if |a| > 0 {
      assert PlanRequests(form, a, true)[|ConditionStep(form)|].endpoint == PatientUpdateAllergies;
    }
  }

  /**
   * Every edit request is a PUT; the full update comes last and always; the order is
   * condition, allergies, full record.
   */
  lemma EditOrder(form: PatientForm)
    ensures var reqs := SubmitRequests(form, true);
      && |reqs| == 1 + (if form.condition != "" then 1 else 0) + (if |ParseAllergies(form.allergies)| > 0 then 1 else 0)
      && (forall r :: r in reqs ==> r.verb == PUT)
      && reqs[|reqs| - 1] == Request(PUT, PatientUpdateInfo, Some(FullBody(form, ParseAllergies(form.allergies))))
      && (form.condition != "" ==> reqs[0].endpoint == PatientUpdateCondition)
      && (|ParseAllergies(form.allergies)| > 0 ==> reqs[|reqs| - 2].endpoint == PatientUpdateAllergies)
      && (form.condition != "" && |ParseAllergies(form.allergies)| > 0 ==>
            |reqs| == 3 && reqs[0].endpoint == PatientUpdateCondition
            && reqs[1].endpoint == PatientUpdateAllergies && reqs[2].endpoint == PatientUpdateInfo)
  {
    PlanOrder(form, ParseAllergies(form.allergies));
  }

  lemma PlanOrder(form: PatientForm, a: seq<string>)
    ensures var reqs := PlanRequests(form, a, true);
      && |reqs| == 1 + (if form.condition != "" then 1 else 0) + (if |a| > 0 then 1 else 0)
      && (forall r :: r in reqs ==> r.verb == PUT)
      && reqs[|reqs| - 1] == Request(PUT, PatientUpdateInfo, Some(FullBody(form, a)))
      && (form.condition != "" ==> reqs[0].endpoint == PatientUpdateCondition)
      && (|a| > 0 ==> reqs[|reqs| - 2].endpoint == PatientUpdateAllergies)
      && (form.condition != "" && |a| > 0 ==>
            |reqs| == 3 && reqs[0].endpoint == PatientUpdateCondition
            && reqs[1].endpoint == PatientUpdateAllergies && reqs[2].endpoint == PatientUpdateInfo)
  {
  }

  /** Rejected calls do not stop the later ones: the log holds every planned call, in order. */
  lemma {:induction false} TraceKeepsEveryCall(reqs: seq<Request>, rejects: Request -> bool)
    requires forall i :: 0 <= i < |reqs| ==> reqs[i].verb != GET
    ensures Mutations(Trace(reqs, rejects)) == reqs
  {
    if reqs != [] {
      var tail := Trace(reqs[1..], rejects);
      var head := [reqs[0]] + (if rejects(reqs[0]) then [] else [ListRequest]);
      TraceKeepsEveryCall(reqs[1..], rejects);
      FilterAppend(head, tail, (r: Request) => r.verb != GET);
    }
  }

  lemma {:induction false} FilterAppend<T>(a: seq<T>, b: seq<T>, keep: T -> bool)
    ensures Filter(a + b, keep) == Filter(a, keep) + Filter(b, keep)
  {
    if a != [] {
      assert (a + b)[1..] == a[1..] + b;
      FilterAppend(a[1..], b, keep);
    } else {
      assert a + b == b;
    }
  }

  /** A refresh follows a call exactly when the call did not reject. */
  lemma {:induction false} TraceRefreshCount(reqs: seq<Request>, rejects: Request -> bool)
    ensures |Trace(reqs, rejects)| == |reqs| + |Filter(reqs, (r: Request) => !rejects(r))|
  {
    if reqs != [] {
      TraceRefreshCount(reqs[1..], rejects);
    }
  }

  /** Editing with an empty condition and the allergy "Dust" sends the allergy and full updates only. */
  lemma EmptyConditionScenario(form: PatientForm)
    requires form.condition == "" && form.allergies == "Dust"
    ensures SubmitRequests(form, true) == [
              Request(PUT, PatientUpdateAllergies, Some(AllergiesBody(form, ["Dust"]))),
              Request(PUT, PatientUpdateInfo, Some(FullBody(form, ["Dust"])))]
  {
    DustParses();
  }

  lemma DustParses()
    ensures ParseAllergies("Dust") == ["Dust"]
  {
    assert IsTrimmed("Dust") && ',' !in "Dust";
    ParseAllergiesSingle("Dust");
  }

  // ---------------------------------------------------------------------------
  // Identifier generation and the search filter
  // ---------------------------------------------------------------------------

  /** `P` followed by the number zero-padded to three digits. */
  function FormatPatientId(n: nat): string {
    "P" + PadStart(NatToString(n), 3, '0')
  }

  /**
   * The id offered for a new patient: one more than the numeric suffix of the last
   * record's id (0 for an empty list), zero-padded to three digits.
   */
  function NextPatientId(patients: seq<Patient>): (id: string)
    ensures |id| >= 4 && id[0] == 'P'
  {
    var lastId := if |patients| > 0 then ParseInt(DropFirst(patients[|patients| - 1].patientId)) else Finite(0);
    "P" + PadStart(NumberToString(Add(lastId, 1)), 3, '0')
  }

  /** After a record with id `FormatPatientId(n)`, the next id is `FormatPatientId(n + 1)`. */
  lemma NextPatientIdFollows(patients: seq<Patient>, n: nat)
    requires |patients| > 0 && patients[|patients| - 1].patientId == FormatPatientId(n)
    ensures NextPatientId(patients) == FormatPatientId(n + 1)
  {
    var suffix := PadStart(NatToString(n), 3, '0');
    assert DropFirst(FormatPatientId(n)) == suffix;
    assert ParseInt(suffix) == Finite(n) by {
      ParsePadded(n, 3);
    }
    assert NumberToString(Add(Finite(n), 1)) == NatToString(n + 1);
  }

  lemma FormatSmallPatientId(d: nat)
    requires d < 10
    ensures FormatPatientId(d) == "P00" + [DigitChar(d)]
  {
    assert Repeat('0', 2) == "00";
  }

  lemma NextPatientIdOfEmpty()
    ensures NextPatientId([]) == "P001"
  {
    assert NumberToString(Add(Finite(0), 1)) == [DigitChar(1)];
    assert Repeat('0', 2) == "00";
  }

  lemma NextPatientIdAfterP003(p: Patient)
    requires p.patientId == "P003"
    ensures NextPatientId([p]) == "P004"
  {
    FormatSmallPatientId(3);
    FormatSmallPatientId(4);
    NextPatientIdFollows([p], 3);
  }

  /** A last id whose suffix is not a number yields `PNaN`. */
  lemma NextPatientIdNaN(patients: seq<Patient>)
    requires |patients| > 0 && ParseInt(DropFirst(patients[|patients| - 1].patientId)) == NaN
    ensures NextPatientId(patients) == "PNaN"
  {
    PadNaN();
  }

  lemma PadNaN()
    ensures "P" + PadStart(NumberToString(Add(NaN, 1)), 3, '0') == "PNaN"
  {
    assert NumberToString(Add(NaN, 1)) == "NaN";
    PadStartLong("NaN", 3, '0');
  }

  predicate PatientMatches(p: Patient, term: string) {
    || MatchesIgnoringCase(p.name, term)
    || MatchesIgnoringCase(p.medicalHistory.condition, term)
    || MatchesIgnoringCase(p.patientId, term)
  }

  function FilterPatients(patients: seq<Patient>, term: string): seq<Patient> {
    Filter(patients, (p: Patient) => PatientMatches(p, term))
  }

  /**
   * The search keeps, in order, exactly the patients whose name, condition or id
   * contains the term, ignoring case; an empty term keeps all.
   */
  lemma FilterPatientsSpec(patients: seq<Patient>, term: string)
    ensures IsSubsequence(FilterPatients(patients, term), patients)
    ensures forall p :: p in FilterPatients(patients, term) <==>
              (&& p in patients
               && (|| MatchesIgnoringCase(p.name, term)
                   || MatchesIgnoringCase(p.medicalHistory.condition, term)
                   || MatchesIgnoringCase(p.patientId, term)))
    ensures term == "" ==> FilterPatients(patients, term) == patients
  {
    FilterSpec(patients, (p: Patient) => PatientMatches(p, term));
    if term == "" {
      forall i | 0 <= i < |patients|
        ensures PatientMatches(patients[i], term)
      {
        EmptyTermMatches(patients[i].name);
      }
    }
  }

  /** The form shown for an existing patient; allergies are joined with ", ". */
  function FormOf(p: Patient): PatientForm {
    PatientForm(p.patientId, p.name, p.dateOfBirth, p.gender, p.contactInfo,
                p.medicalHistory.condition, Join(p.medicalHistory.allergies, ", "))
  }

  /** Opening a patient and submitting untouched sends its clean allergy list unchanged. */
  lemma ReopenedAllergiesUnchanged(p: Patient)
    requires CleanAllergies(p.medicalHistory.allergies)
    ensures ParseAllergies(FormOf(p).allergies) == p.medicalHistory.allergies
  {
    ParseAllergiesOfJoin(p.medicalHistory.allergies);
  }

  // ---------------------------------------------------------------------------
  // The page component
  // ---------------------------------------------------------------------------

  class PatientManagementPage {
    var patients: seq<Patient>
    var searchTerm: string
    var formData: PatientForm
    var editingPatient: Option<Patient>
    var modalOpen: bool
    /** Every request the page has issued, oldest first. */
    var log: seq<Request>

    /** Mounting the page: the initial state, then the list fetch of the effect hook. */
    constructor (listing: Option<seq<Patient>>)
      ensures log == [ListRequest]
      ensures patients == (if listing.Some? then listing.value else [])
      ensures searchTerm == "" && !modalOpen && editingPatient == None
      ensures formData == PatientForm("", "", "", "Male", "", "", "")
    {
      patients := [];
      searchTerm := "";
      formData := PatientForm("", "", "", "Male", "", "", "");
      editingPatient := None;
      modalOpen := false;
      log := [ListRequest];
      if listing.Some? {
        patients := listing.value;
      }
    }

    /** `fetchPatients`: a failed fetch leaves the list as it was. */
    method FetchPatients(listing: Option<seq<Patient>>)
      modifies this
      ensures log == old(log) + [ListRequest]
      ensures patients == (if listing.Some? then listing.value else old(patients))
      ensures searchTerm == old(searchTerm) && formData == old(formData)
      ensures editingPatient == old(editingPatient) && modalOpen == old(modalOpen)
    {
      log := log + [ListRequest];
      if listing.Some? {
        patients := listing.value;
      }
    }

    method CloseModal()
      modifies this
      ensures !modalOpen && editingPatient == None
      ensures log == old(log) && patients == old(patients)
      ensures searchTerm == old(searchTerm) && formData == old(formData)
    {
      modalOpen := false;
      editingPatient := None;
    }

    /**
     * The state after the calls `sent` of one submission, starting from `log0`, `open0`,
     * `editing0` and `patients0`.
     */
    ghost predicate After(sent: seq<Request>, rejects: Request -> bool, listing: Request -> Option<seq<Patient>>,
                          log0: seq<Request>, open0: bool, editing0: Option<Patient>, patients0: seq<Patient>)
      reads this
    {
      && log == log0 + Trace(sent, rejects)
      && modalOpen == (open0 && AllRejected(sent, rejects))
      && editingPatient == (if AllRejected(sent, rejects) then editing0 else None)
      && patients == Refreshed(sent, rejects, listing, patients0)
    }

    /** One awaited call in its own try/catch: on success, refresh and close. */
    method Send(r: Request, rejects: Request -> bool, listing: Request -> Option<seq<Patient>>,
                ghost sent: seq<Request>, ghost log0: seq<Request>, ghost open0: bool,
                ghost editing0: Option<Patient>, ghost patients0: seq<Patient>)
      requires After(sent, rejects, listing, log0, open0, editing0, patients0)
      modifies this
      ensures After(sent + [r], rejects, listing, log0, open0, editing0, patients0)
      ensures searchTerm == old(searchTerm) && formData == old(formData)
    {
      TraceAppend(sent, [r], rejects);
      assert AllRejected(sent + [r], rejects) <==> AllRejected(sent, rejects) && rejects(r) by {
        assert forall i :: 0 <= i < |sent| ==> (sent + [r])[i] == sent[i];
        assert (sent + [r])[|sent|] == r;
      }
      assert (sent + [r])[..|sent|] == sent;
      log := log + [r];
      if !rejects(r) {
        FetchPatients(listing(r));
        CloseModal();
      }
    }

    /**
     * `handleSubmit`: the planned calls are all issued, whichever of them reject;
     * the modal closes as soon as one of them succeeds. The refresh after a call `r`
     * answers `listing(r)`, so each refresh may give its own list or fail on its own.
     */
    method HandleSubmit(rejects: Request -> bool, listing: Request -> Option<seq<Patient>>)
      modifies this
      ensures After(SubmitRequests(old(formData), old(editingPatient).Some?), rejects, listing,
                    old(log), old(modalOpen), old(editingPatient), old(patients))
      ensures searchTerm == old(searchTerm) && formData == old(formData)
    {
      var allergiesArray := ParseAllergies(formData.allergies);
      SubmitParsed(allergiesArray, rejects, listing);
    }

    /** The body of `handleSubmit` once the allergy text is parsed into `allergiesArray`. */
    method SubmitParsed(allergiesArray: seq<string>, rejects: Request -> bool, listing: Request -> Option<seq<Patient>>)
      modifies this
      ensures After(PlanRequests(old(formData), allergiesArray, old(editingPatient).Some?), rejects, listing,
                    old(log), old(modalOpen), old(editingPatient), old(patients))
      ensures searchTerm == old(searchTerm) && formData == old(formData)
    {
      ghost var log0, open0, editing0, patients0 := log, modalOpen, editingPatient, patients;
      var isEdit := editingPatient.Some?;
      var verb := if isEdit then PUT else POST;
      var form := formData;
      ghost var sent: seq<Request> := [];
      assert Trace([], rejects) == [];
      if !isEdit {
        var r := Request(verb, PatientAdd, Some(FullBody(form, allergiesArray)));
        Send(r, rejects, listing, sent, log0, open0, editing0, patients0);
        sent := sent + [r];
      } else {
        if form.condition != "" {
          var r := Request(verb, PatientUpdateCondition, Some(ConditionBody(form)));
          Send(r, rejects, listing, sent, log0, open0, editing0, patients0);
          sent := sent + [r];
        }
        if |allergiesArray| > 0 {
          var r := Request(verb, PatientUpdateAllergies, Some(AllergiesBody(form, allergiesArray)));
          Send(r, rejects, listing, sent, log0, open0, editing0, patients0);
          sent := sent + [r];
        }
        var r := Request(verb, PatientUpdateInfo, Some(FullBody(form, allergiesArray)));
        Send(r, rejects, listing, sent, log0, open0, editing0, patients0);
        sent := sent + [r];
      }
      assert sent == PlanRequests(form, allergiesArray, isEdit);
    }

    /** `handleOpenModal`: edit an existing patient, or start a new one with the next id. */
    method OpenModal(patient: Option<Patient>)
      modifies this
      ensures modalOpen && editingPatient == patient
      ensures formData == (if patient.Some? then FormOf(patient.value)
                           else PatientForm(NextPatientId(old(patients)), "", "", "Male", "", "", ""))
      ensures log == old(log) && patients == old(patients) && searchTerm == old(searchTerm)
    {
      if patient.Some? {
        editingPatient := patient;
        formData := FormOf(patient.value);
      } else {
        var newId := NextPatientId(patients);
        editingPatient := None;
        formData := PatientForm(newId, "", "", "Male", "", "", "");
      }
      modalOpen := true;
    }

    /** `handleDelete`: after confirmation, one DELETE and a refresh when it did not reject. */
    method HandleDelete(patientId: string, confirmed: bool, rejects: Request -> bool, listing: Option<seq<Patient>>)
      modifies this
      ensures log == old(log) + (if confirmed then Trace([Request(DELETE, PatientDelete(patientId), None)], rejects) else [])
      ensures patients == (if confirmed && !rejects(Request(DELETE, PatientDelete(patientId), None)) && listing.Some?
                           then listing.value else old(patients))
      ensures modalOpen == old(modalOpen) && editingPatient == old(editingPatient)
      ensures searchTerm == old(searchTerm) && formData == old(formData)
    {
      if confirmed {
        var r := Request(DELETE, PatientDelete(patientId), None);
        log := log + [r];
        if !rejects(r) {
          FetchPatients(listing);
        }
      }
    }
  }

  lemma {:induction false} TraceAppend(a: seq<Request>, b: seq<Request>, rejects: Request -> bool)
    ensures Trace(a + b, rejects) == Trace(a, rejects) + Trace(b, rejects)
  {
    if a == [] {
      assert a + b == b;
    } else {
      assert (a + b)[1..] == a[1..] + b;
      TraceAppend(a[1..], b, rejects);
    }
  }
}
