/**
 * The admin staff page (frontend/src/components/Admin/StaffManagement.tsx): the
 * submission payload with its `"not changed"` shift marker, the choice between
 * creation and update, the search filter, the ward colours and the shift text field.
 */
module StaffAdmin {
  import opened Wrappers
  import opened Text
  import opened Seqs
  import opened Http

  /** A staff record; the ward is kept as the text the server or the select box gave. */
  datatype Staff = Staff(
    staffId: string, name: string, role: string, contactInfo: string, department: string,
    specialization: string, shift: seq<string>, ward: string, status: string)

  const General := "General"
  const Icu := "ICU"
  const Pediatric := "Pediatric"
  const Emergency := "Emergency"

  /** The list refresh that `fetchStaffs` issues. */
  const ListRequest := Request(GET, Staffs, None)

  /** The marker sent instead of the shift list when the shift did not change. */
  const NotChanged := "not changed"

  // ---------------------------------------------------------------------------
  // The submission payload
  // ---------------------------------------------------------------------------

  /**
   * The shift sent with a submission: the marker when editing and the old and new
   * lists, each joined with `,` and trimmed at the ends, are equal; otherwise the
   * form's list as it is.
   */
  function ShiftToSend(form: Staff, editing: Option<Staff>): (v: Value)
    ensures v == Str(NotChanged) <==>
              editing.Some? && Trim(Join(editing.value.shift, ",")) == Trim(Join(form.shift, ","))
    ensures v != Str(NotChanged) ==> v == StrList(form.shift)
  {
    if editing.Some? && Trim(Join(editing.value.shift, ",")) == Trim(Join(form.shift, ","))
    then Str(NotChanged)
    else StrList(form.shift)
  }

  /** `{...formData, shift: shiftDataToSend}`. */
  function StaffBody(form: Staff, shift: Value): Object {
    map[
      "staff_id" := Str(form.staffId), "name" := Str(form.name), "role" := Str(form.role),
      "contact_info" := Str(form.contactInfo), "department" := Str(form.department),
      "specialization" := Str(form.specialization), "shift" := shift,
      "ward" := Str(form.ward), "status" := Str(form.status)]
  }

  /** The one request a submission issues. */
  function SubmitRequest(form: Staff, editing: Option<Staff>): (r: Request)
    ensures r.verb == PUT <==> editing.Some?
    ensures r.verb == POST <==> editing.None?
    ensures r.endpoint == (if editing.Some? then StaffUpdateInfo else StaffAdd)
    ensures r.body.Some? && "shift" in r.body.value && r.body.value["shift"] == ShiftToSend(form, editing)
  {
    var verb := if editing.Some? then PUT else POST;
    var endpoint := if editing.Some? then StaffUpdateInfo else StaffAdd;
    Request(verb, endpoint, Some(StaffBody(form, ShiftToSend(form, editing))))
  }

  /** Every field of the payload except the shift is the form's own. */
  lemma PayloadCopiesForm(form: Staff, editing: Option<Staff>)
    ensures var body := SubmitRequest(form, editing).body.value;
      && body.Keys == {"staff_id", "name", "role", "contact_info", "department",
                       "specialization", "shift", "ward", "status"}
      && body["staff_id"] == Str(form.staffId) && body["name"] == Str(form.name)
      && body["role"] == Str(form.role) && body["contact_info"] == Str(form.contactInfo)
      && body["department"] == Str(form.department)
      && body["specialization"] == Str(form.specialization)
      && body["ward"] == Str(form.ward) && body["status"] == Str(form.status)
  {
    BodyCopiesForm(form, ShiftToSend(form, editing));
  }

  lemma BodyCopiesForm(form: Staff, shift: Value)
    ensures var body := StaffBody(form, shift);
      && body.Keys == {"staff_id", "name", "role", "contact_info", "department",
                       "specialization", "shift", "ward", "status"}
      && body["staff_id"] == Str(form.staffId) && body["name"] == Str(form.name)
      && body["role"] == Str(form.role) && body["contact_info"] == Str(form.contactInfo)
      && body["department"] == Str(form.department)
      && body["specialization"] == Str(form.specialization)
      && body["ward"] == Str(form.ward) && body["status"] == Str(form.status)
  {
  }

  /** A creation always sends the list itself, never the marker. */
  lemma CreationSendsList(form: Staff)
    ensures SubmitRequest(form, None).body.value["shift"] == StrList(form.shift)
  {
  }

  /** Reopening a member and submitting without touching the shift sends the marker. */
  lemma UntouchedShiftIsMarked(member: Staff, form: Staff)
    requires form.shift == member.shift
    ensures SubmitRequest(form, Some(member)).body.value["shift"] == Str(NotChanged)
  {
  }

  lemma {:induction false} JoinPrependHead(w: string, xs: seq<string>, sep: string)
    requires xs != []
    ensures Join([w + xs[0]] + xs[1..], sep) == w + Join(xs, sep)
  {
    var ys := [w + xs[0]] + xs[1..];
    assert ys[0] == w + xs[0] && ys[1..] == xs[1..];
  }

  /**
   * Only the ends of the joined text are trimmed: white space added in front of the
   * first shift still counts as no change.
   */
  lemma LeadingSpaceIsNoChange(member: Staff, form: Staff, w: string)
    requires member.shift != [] && forall i :: 0 <= i < |w| ==> IsSpace(w[i])
    requires form.shift == [w + member.shift[0]] + member.shift[1..]
    ensures ShiftToSend(form, Some(member)) == Str(NotChanged)
  {
    JoinPrependHead(w, member.shift, ",");
    TrimIgnoresLeadingSpace(w, Join(member.shift, ","));
  }

  /** Comparison is on the joined text: one shift "a,b" and the two shifts "a", "b" are equal. */
  lemma JoinedComparisonQuirk(member: Staff, form: Staff)
    requires member.shift == ["Morning,Night"] && form.shift == ["Morning", "Night"]
    ensures ShiftToSend(form, Some(member)) == Str(NotChanged)
  {
    var xs := form.shift;
    assert xs[1..] == ["Night"];
    assert Join(xs, ",") == "Morning" + "," + "Night" == Join(member.shift, ",");
  }

  /** White space inside the joined text is compared: "a, b" and "a,b" differ. */
  lemma InnerSpaceIsChange(member: Staff, form: Staff)
    requires member.shift == ["Morning", "Night"] && form.shift == ["Morning", " Night"]
    ensures ShiftToSend(form, Some(member)) == StrList(["Morning", " Night"])
  {
    var a := Join(member.shift, ",");
    var b := Join(form.shift, ",");
    assert member.shift[1..] == ["Night"] && form.shift[1..] == [" Night"];
    assert Join(["Night"], ",") == "Night" && Join([" Night"], ",") == " Night";
    assert a == "Morning" + "," + Join(["Night"], ",");
    assert b == "Morning" + "," + Join([" Night"], ",");
    assert IsTrimmed(a) && IsTrimmed(b);
    TrimOfTrimmed(a);
    TrimOfTrimmed(b);
    assert a[8] != b[8];
  }

  // ---------------------------------------------------------------------------
  // The shift text field
  // ---------------------------------------------------------------------------

  /** The text the shift input shows. */
  function ShiftText(shift: seq<string>): string {
    Join(shift, ", ")
  }

  /** What typing `text` into the shift input stores. */
  function ParseShiftText(text: string): (shift: seq<string>)
    ensures |shift| >= 1
    ensures ShiftText(shift) == text
  {
    Split(text, ", ")
  }

  /** A non-empty list whose shifts hold no ", " survives being shown and re-read. */
  lemma ShiftTextRoundTrip(shift: seq<string>)
    requires shift != [] && forall i :: 0 <= i < |shift| ==> !Contains(shift[i], ", ")
    ensures ParseShiftText(ShiftText(shift)) == shift
  {
    forall i | 0 <= i < |shift|
      ensures SeparatorFree(shift[i], ", ")
    {
      CommaSpaceFree(shift[i]);
    }
    SplitJoin(shift, ", ");
  }

  /** The empty list is shown as the empty text, which is read back as one empty shift. */
  lemma EmptyShiftNotRestored()
    ensures ShiftText([]) == "" && ParseShiftText("") == [""]
  {
  }

  // ---------------------------------------------------------------------------
  // The filter and the ward colours
  // ---------------------------------------------------------------------------

  predicate StaffMatches(m: Staff, term: string) {
    || MatchesIgnoringCase(m.name, term)
    || MatchesIgnoringCase(m.role, term)
    || MatchesIgnoringCase(m.ward, term)
    || MatchesIgnoringCase(m.staffId, term)
  }

  function FilterStaff(staff: seq<Staff>, term: string): seq<Staff> {
    Filter(staff, (m: Staff) => StaffMatches(m, term))
  }

  /**
   * The search keeps, in order, exactly the members whose name, role, ward or id
   * contains the term, ignoring case; an empty term keeps all.
   */
  lemma FilterStaffSpec(staff: seq<Staff>, term: string)
    ensures IsSubsequence(FilterStaff(staff, term), staff)
    ensures forall m :: m in FilterStaff(staff, term) <==>
              (&& m in staff
               && (|| MatchesIgnoringCase(m.name, term)
                   || MatchesIgnoringCase(m.role, term)
                   || MatchesIgnoringCase(m.ward, term)
                   || MatchesIgnoringCase(m.staffId, term)))
    ensures term == "" ==> FilterStaff(staff, term) == staff
  {
    FilterSpec(staff, (m: Staff) => StaffMatches(m, term));
    if term == "" {
      forall i | 0 <= i < |staff|
        ensures StaffMatches(staff[i], term)
      {
        EmptyTermMatches(staff[i].name);
      }
    }
  }

  const Gray := "bg-gray-100 text-gray-800"

  /** `getWardColor`: one badge class per ward, gray for anything else. */
  function WardColor(ward: string): (c: string)
    ensures c == Gray <==> ward !in {General, Icu, Pediatric, Emergency}
  {
    if ward == General then "bg-blue-100 text-blue-800"
    else if ward == Icu then "bg-red-100 text-red-800"
    else if ward == Pediatric then "bg-green-100 text-green-800"
    else if ward == Emergency then "bg-yellow-100 text-yellow-800"
    else Gray
  }

  /** The four wards get four different classes. */
  lemma WardColorsDistinct()
    ensures |{WardColor(General), WardColor(Icu), WardColor(Pediatric), WardColor(Emergency)}| == 4
  {
    assert WardColor(General)[3] == 'b';
    assert WardColor(Icu)[3] == 'r';
    assert WardColor(Pediatric)[3] == 'g';
    assert WardColor(Emergency)[3] == 'y';
  }

  // ---------------------------------------------------------------------------
  // The page component
  // ---------------------------------------------------------------------------

  const EmptyForm := Staff("", "", "", "", "", "", [], General, "active")

  class StaffManagementPage {
    var staff: seq<Staff>
    var searchTerm: string
    var isModalOpen: bool
    var editingStaff: Option<Staff>
    var formData: Staff
    /** Every request the page has issued, oldest first. */
    var log: seq<Request>

    /** Mounting the page: the initial state, then the list fetch of the effect hook. */
    constructor (listing: Option<seq<Staff>>)
      ensures log == [ListRequest]
      ensures staff == (if listing.Some? then listing.value else [])
      ensures searchTerm == "" && !isModalOpen && editingStaff == None && formData == EmptyForm
    {
      staff := [];
      searchTerm := "";
      isModalOpen := false;
      editingStaff := None;
      formData := EmptyForm;
      log := [ListRequest];
      if listing.Some? {
        staff := listing.value;
      }
    }

    /** `fetchStaffs`: its own catch swallows a failure and leaves the list as it was. */
    method FetchStaffs(listing: Option<seq<Staff>>)
      modifies this
      ensures log == old(log) + [ListRequest]
      ensures staff == (if listing.Some? then listing.value else old(staff))
      ensures searchTerm == old(searchTerm) && isModalOpen == old(isModalOpen)
      ensures editingStaff == old(editingStaff) && formData == old(formData)
    {
      log := log + [ListRequest];
      if listing.Some? {
        staff := listing.value;
      }
    }

    method CloseModal()
      modifies this
      ensures !isModalOpen && editingStaff == None
      ensures log == old(log) && staff == old(staff)
      ensures searchTerm == old(searchTerm) && formData == old(formData)
    {
      isModalOpen := false;
      editingStaff := None;
    }

    /**
     * `handleSubmit`: one request; only when it does not reject are the list
     * refreshed and the modal closed.
     */
    method HandleSubmit(rejects: Request -> bool, listing: Option<seq<Staff>>)
      modifies this
      ensures var r := SubmitRequest(old(formData), old(editingStaff));
        && log == old(log) + [r] + (if rejects(r) then [] else [ListRequest])
        && isModalOpen == (old(isModalOpen) && rejects(r))
        && editingStaff == (if rejects(r) then old(editingStaff) else None)
        && staff == (if !rejects(r) && listing.Some? then listing.value else old(staff))
      ensures searchTerm == old(searchTerm) && formData == old(formData)
    {
      var shiftDataToSend := StrList(formData.shift);
      if editingStaff.Some? {
        var oldShift := Trim(Join(editingStaff.value.shift, ","));
        var newShift := Trim(Join(formData.shift, ","));
        if oldShift == newShift {
          shiftDataToSend := Str(NotChanged);
        }
      }
      var staffData := StaffBody(formData, shiftDataToSend);
      var isEdit := editingStaff.Some?;
      var endpoint := if isEdit then StaffUpdateInfo else StaffAdd;
      var verb := if isEdit then PUT else POST;
      var r := Request(verb, endpoint, Some(staffData));
      log := log + [r];
      if !rejects(r) {
        FetchStaffs(listing);
        CloseModal();
      }
    }

    /** `handleDelete`: after confirmation, one DELETE and a refresh when it did not reject. */
    method HandleDelete(staffId: string, confirmed: bool, rejects: Request -> bool, listing: Option<seq<Staff>>)
      modifies this
      ensures var r := Request(DELETE, StaffDelete(staffId), None);
        && log == old(log) + (if !confirmed then [] else [r] + (if rejects(r) then [] else [ListRequest]))
        && staff == (if confirmed && !rejects(r) && listing.Some? then listing.value else old(staff))
      ensures isModalOpen == old(isModalOpen) && editingStaff == old(editingStaff)
      ensures searchTerm == old(searchTerm) && formData == old(formData)
    {
      if confirmed {
        var r := Request(DELETE, StaffDelete(staffId), None);
        log := log + [r];
        if !rejects(r) {
          FetchStaffs(listing);
        }
      }
    }

    /** `handleOpenModal`: edit a copy of the member, or a blank doctor in the general ward. */
    method OpenModal(member: Option<Staff>)
      modifies this
      ensures isModalOpen && editingStaff == member
      ensures formData == (if member.Some? then member.value
                           else Staff("", "", "Doctor", "", "", "", [], General, "active"))
      ensures log == old(log) && staff == old(staff) && searchTerm == old(searchTerm)
    {
      if member.Some? {
        editingStaff := member;
        formData := member.value;
      } else {
        editingStaff := None;
        formData := Staff("", "", "Doctor", "", "", "", [], General, "active");
      }
      isModalOpen := true;
    }

    /** Typing into the shift input. */
    method EditShiftText(text: string)
      modifies this
      ensures formData == old(formData).(shift := ParseShiftText(text))
      ensures ShiftText(formData.shift) == text
      ensures log == old(log) && staff == old(staff) && searchTerm == old(searchTerm)
      ensures isModalOpen == old(isModalOpen) && editingStaff == old(editingStaff)
    {
      formData := formData.(shift := ParseShiftText(text));
    }
  }
}
