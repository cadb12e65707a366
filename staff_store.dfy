/**
 * The older, in-memory staff page (src/components/StaffManagement.tsx): a list of
 * records edited, appended to and deleted in place, with the generated `S...` id.
 * Its records have the same shape as those of the admin page.
 */
module StaffStore {
  import opened Wrappers
  import opened Text
  import opened Seqs
  import StaffAdmin

  type Staff = StaffAdmin.Staff

  /** The one record the page starts with. */
  const InitialStaff: seq<Staff> := [
    StaffAdmin.Staff("S001", "Harry Potter", "Doctor", "0363439975", "Emergency Department",
                     "Trauma Surgery",
                     ["Monday 08:00-16:00", "Wednesday 08:00-16:00", "Friday 08:00-16:00"],
                     "Emergency", "active")]

  const BlankForm: Staff := StaffAdmin.Staff("", "", "", "", "", "", [], "", "active")

  // ---------------------------------------------------------------------------
  // Edit: `staff.map(member => member.staff_id === id ? {...member, ...formData} : member)`
  // ---------------------------------------------------------------------------

  /**
   * Every record with the edited id becomes the form; the form holds every field of a
   * record, so the spread keeps nothing of the old record.
   */
  function ReplaceById(staff: seq<Staff>, id: string, form: Staff): (r: seq<Staff>)
    ensures |r| == |staff|
    ensures forall i :: 0 <= i < |staff| ==> r[i] == if staff[i].staffId == id then form else staff[i]
  {
    if staff == [] then []
    else [if staff[0].staffId == id then form else staff[0]] + ReplaceById(staff[1..], id, form)
  }

  function Ids(staff: seq<Staff>): (ids: seq<string>)
    ensures |ids| == |staff| && forall i :: 0 <= i < |staff| ==> ids[i] == staff[i].staffId
  {
    seq(|staff|, i requires 0 <= i < |staff| => staff[i].staffId)
  }

  /** An edit that leaves the id alone leaves every id where it was. */
  lemma ReplaceKeepsIds(staff: seq<Staff>, id: string, form: Staff)
    requires form.staffId == id
    ensures Ids(ReplaceById(staff, id, form)) == Ids(staff)
  {
    var r := ReplaceById(staff, id, form);
    assert forall i :: 0 <= i < |staff| ==> Ids(r)[i] == Ids(staff)[i];
  }

  /** Editing an id no record has changes nothing. */
  lemma ReplaceAbsentId(staff: seq<Staff>, id: string, form: Staff)
    requires id !in Ids(staff)
    ensures ReplaceById(staff, id, form) == staff
  {
    var r := ReplaceById(staff, id, form);
    forall i | 0 <= i < |staff|
      ensures r[i] == staff[i]
    {
      assert Ids(staff)[i] == staff[i].staffId;
    }
  }

  // ---------------------------------------------------------------------------
  // Add and the generated id
  // ---------------------------------------------------------------------------

  /** `parseInt(s.staff_id.substring(1))` for every record. */
  function Suffixes(staff: seq<Staff>): (ns: seq<Number>)
    ensures |ns| == |staff| && forall i :: 0 <= i < |staff| ==> ns[i] == ParseInt(DropFirst(staff[i].staffId))
  {
    seq(|staff|, i requires 0 <= i < |staff| => ParseInt(DropFirst(staff[i].staffId)))
  }

  /** `Math.max(0, ...suffixes) + 1`. */
  function NextNumber(staff: seq<Staff>): (n: Number)
    ensures n.NaN? <==> NaN in Suffixes(staff)
    ensures n.Finite? ==> n.value >= 1 && forall k :: k in Suffixes(staff) ==> k.value < n.value
  {
    Add(MaxOf(Finite(0), Suffixes(staff)), 1)
  }

  /**
   * The id given to an added record, as written: the `padStart(3, '0')` applies to the
   * whole `S<n>` text rather than to the number.
   */
  function NewStaffId(staff: seq<Staff>): (id: string)
    ensures |id| >= 3
  {
    PadStart("S" + NumberToString(NextNumber(staff)), 3, '0')
  }

  /** The id the generator is evidently meant to give: `S` and the number padded to three digits. */
  function CorrectedStaffId(staff: seq<Staff>): (id: string)
    ensures |id| >= 4 && id[0] == 'S'
  {
    "S" + PadStart(NumberToString(NextNumber(staff)), 3, '0')
  }

  /** Appending the form under a fresh id. */
  function AddStaff(staff: seq<Staff>, form: Staff): (r: seq<Staff>)
    ensures |r| == |staff| + 1 && r[..|staff|] == staff
    ensures r[|staff|] == form.(staffId := NewStaffId(staff))
  {
    staff + [form.(staffId := NewStaffId(staff))]
  }

  lemma ParseS2()
    ensures ParseInt("S2") == NaN
  {
    assert !IsSpace('S') && !IsDigitIn('S', 10);
    ParseIntDecimal("S2");
  }

  lemma ParseNaNText()
    ensures ParseInt("NaN") == NaN
  {
    assert !IsSpace('N') && !IsDigitIn('N', 10);
    ParseIntDecimal("NaN");
  }

  lemma Parse001()
    ensures ParseInt("001") == Finite(1)
  {
    ParsePadded(1, 3);
    assert NatToString(1) == "1";
    assert Repeat('0', 2) == "00";
    assert PadStart(NatToString(1), 3, '0') == "001";
  }

  /** One suffix that is not a number makes the next id `SNaN`. */
  lemma NewStaffIdNaN(staff: seq<Staff>, i: nat)
    requires i < |staff| && ParseInt(DropFirst(staff[i].staffId)) == NaN
    ensures NewStaffId(staff) == "SNaN"
  {
    assert Suffixes(staff)[i] == NaN;
    assert NextNumber(staff) == NaN;
    PadSNaN();
  }

  lemma PadSNaN()
    ensures PadStart("S" + NumberToString(NaN), 3, '0') == "SNaN"
  {
    assert "S" + NumberToString(NaN) == "SNaN";
    PadStartLong("SNaN", 3, '0');
  }

  lemma NextNumberAfterS001(staff: seq<Staff>)
    requires |staff| == 1 && staff[0].staffId == "S001"
    ensures NextNumber(staff) == Finite(2)
  {
    assert Suffixes(staff) == [Finite(1)] by {
      SuffixesOfS001(staff);
    }
    MaxAfterS001();
  }

  lemma SuffixesOfS001(staff: seq<Staff>)
    requires |staff| == 1 && staff[0].staffId == "S001"
    ensures Suffixes(staff) == [Finite(1)]
  {
    assert DropFirst(staff[0].staffId) == "001";
    Parse001();
  }

  lemma MaxAfterS001()
    ensures Add(MaxOf(Finite(0), [Finite(1)]), 1) == Finite(2)
  {
    assert [Finite(1)][1..] == [];
  }

  lemma PadS2()
    ensures PadStart("S" + NumberToString(Finite(2)), 3, '0') == "0S2"
  {
    assert NumberToString(Finite(2)) == "2";
    assert Repeat('0', 1) == "0";
  }

  /** From a lone record `S001`, as in the initial list, the next id is `0S2`, not `S002`. */
  lemma NewStaffIdAfterS001(staff: seq<Staff>)
    requires |staff| == 1 && staff[0].staffId == "S001"
    ensures NewStaffId(staff) == "0S2"
  {
    NextNumberAfterS001(staff);
    PadS2();
  }

  /**
   * Adding three records to a lone `S001`: the second and third both get `SNaN`,
   * so two records share an id.
   */
  lemma AsWrittenIdsCollide(s0: seq<Staff>, f1: Staff, f2: Staff, f3: Staff)
    requires |s0| == 1 && s0[0].staffId == "S001"
    ensures var s1 := AddStaff(s0, f1);
      var s2 := AddStaff(s1, f2);
      var s3 := AddStaff(s2, f3);
      && s3[0].staffId == "S001" && s3[1].staffId == "0S2"
      && s3[2].staffId == "SNaN" && s3[3].staffId == "SNaN"
  {
    var s1 := AddStaff(s0, f1);
    assert s1[1].staffId == "0S2" by { NewStaffIdAfterS001(s0); }
    var s2 := AddStaff(s1, f2);
    assert s2[2].staffId == "SNaN" by { CollideStep(s1, 1, "0S2", "S2"); }
    var s3 := AddStaff(s2, f3);
    assert s3[3].staffId == "SNaN" by { CollideStep(s2, 2, "SNaN", "NaN"); }
    assert s3[0] == s0[0] && s3[1] == s1[1] && s3[2] == s2[2];
  }

  lemma CollideStep(staff: seq<Staff>, i: nat, id: string, suffix: string)
    requires i < |staff| && staff[i].staffId == id
    requires (id == "0S2" && suffix == "S2") || (id == "SNaN" && suffix == "NaN")
    ensures NewStaffId(staff) == "SNaN"
  {
    assert DropFirst(id) == suffix;
    if id == "0S2" {
      ParseS2();
    } else {
      ParseNaNText();
    }
    NewStaffIdNaN(staff, i);
  }

  /** Ids whose suffix after the first character reads as a number. */
  predicate NumericSuffixes(staff: seq<Staff>) {
    forall i :: 0 <= i < |staff| ==> ParseInt(DropFirst(staff[i].staffId)).Finite?
  }

  /** The initial record's suffix `001` reads as a number. */
  lemma InitialStaffNumeric()
    ensures NumericSuffixes(InitialStaff)
  {
    assert DropFirst(InitialStaff[0].staffId) == "001";
    Parse001();
  }

  /**
   * The corrected generator gives an id no record has, and one whose suffix is again
   * a number, so it stays fresh however many records are added.
   */
  lemma CorrectedStaffIdFresh(staff: seq<Staff>)
    requires NumericSuffixes(staff)
    ensures CorrectedStaffId(staff) !in Ids(staff)
    ensures ParseInt(DropFirst(CorrectedStaffId(staff))).Finite?
  {
    var sfx := Suffixes(staff);
    assert NaN !in sfx by {
      forall k | k in sfx
        ensures k != NaN
      {
        var i :| 0 <= i < |sfx| && sfx[i] == k;
      }
    }
    var n := NextNumber(staff);
    var v: nat := n.value;
    var id := CorrectedStaffId(staff);
    assert id == "S" + PadStart(NatToString(v), 3, '0');
    assert DropFirst(id) == PadStart(NatToString(v), 3, '0');
    ParsePadded(v, 3);
    forall i | 0 <= i < |staff|
      ensures Ids(staff)[i] != id
    {
      assert sfx[i] in sfx;
    }
  }

  /** The corrected generator keeps every record's suffix numeric. */
  lemma CorrectedAddKeepsNumeric(staff: seq<Staff>, form: Staff)
    requires NumericSuffixes(staff)
    ensures NumericSuffixes(staff + [form.(staffId := CorrectedStaffId(staff))])
  {
    var record := form.(staffId := CorrectedStaffId(staff));
    assert ParseInt(DropFirst(record.staffId)).Finite? by {
      CorrectedStaffIdFresh(staff);
    }
    NumericAppend(staff, record);
  }

  lemma NumericAppend(staff: seq<Staff>, record: Staff)
    requires NumericSuffixes(staff) && ParseInt(DropFirst(record.staffId)).Finite?
    ensures NumericSuffixes(staff + [record])
  {
    var added := staff + [record];
    forall i | 0 <= i < |added|
      ensures ParseInt(DropFirst(added[i].staffId)).Finite?
    {
      if i < |staff| {
        assert added[i] == staff[i];
      }
    }
  }

  // ---------------------------------------------------------------------------
  // Delete and the filter
  // ---------------------------------------------------------------------------

  /** `staff.filter(member => member.staff_id !== staff_id)`. */
  function RemoveById(staff: seq<Staff>, id: string): seq<Staff> {
    Filter(staff, (m: Staff) => m.staffId != id)
  }

  /** Deletion removes every record with the id and keeps each other one, in order. */
  lemma RemoveByIdSpec(staff: seq<Staff>, id: string)
    ensures id !in Ids(RemoveById(staff, id))
    ensures IsSubsequence(RemoveById(staff, id), staff)
    ensures forall m: Staff :: m.staffId != id ==> multiset(RemoveById(staff, id))[m] == multiset(staff)[m]
  {
    var r := RemoveById(staff, id);
    forall i | 0 <= i < |r|
      ensures Ids(r)[i] != id
    {
      assert r[i] in r;
    }
    FilterIsSubsequence(staff, (m: Staff) => m.staffId != id);
    forall m: Staff | m.staffId != id
      ensures multiset(r)[m] == multiset(staff)[m]
    {
      FilterCountOf(staff, (m: Staff) => m.staffId != id, m);
    }
  }

  predicate StaffMatches(m: Staff, term: string) {
    || MatchesIgnoringCase(m.name, term)
    || MatchesIgnoringCase(m.role, term)
    || MatchesIgnoringCase(m.department, term)
  }

  function FilterStaff(staff: seq<Staff>, term: string): seq<Staff> {
    Filter(staff, (m: Staff) => StaffMatches(m, term))
  }

  /**
   * The search keeps, in order, exactly the members whose name, role or department
   * contains the term, ignoring case; an empty term keeps all.
   */
  lemma FilterStaffSpec(staff: seq<Staff>, term: string)
    ensures IsSubsequence(FilterStaff(staff, term), staff)
    ensures forall m :: m in FilterStaff(staff, term) <==>
              (&& m in staff
               && (|| MatchesIgnoringCase(m.name, term)
                   || MatchesIgnoringCase(m.role, term)
                   || MatchesIgnoringCase(m.department, term)))
    ensures term == "" ==> FilterStaff(staff, term) == staff
  {
    FilterSpec(staff, (m: Staff) => StaffMatches(m, term));
    if term == "" {
      forall i | 0 <= i < |staff|
        ensures StaffMatches(staff[i], term)
      {
        EmptyTermMatches(staff[i].name);
      }
    }
  }

  // ---------------------------------------------------------------------------
  // The page component
  // ---------------------------------------------------------------------------

  class StaffManagementPage {
    var staff: seq<Staff>
    var searchTerm: string
    var isModalOpen: bool
    var editingStaff: Option<Staff>
    var formData: Staff

    constructor ()
      ensures staff == InitialStaff && searchTerm == "" && !isModalOpen
      ensures editingStaff == None && formData == BlankForm
    {
      staff := InitialStaff;
      searchTerm := "";
      isModalOpen := false;
      editingStaff := None;
      formData := BlankForm;
    }

    /** `handleOpenModal`: edit a copy of the member, or a blank record. */
    method OpenModal(member: Option<Staff>)
      modifies this
      ensures isModalOpen && editingStaff == member
      ensures formData == (if member.Some? then member.value else BlankForm)
      ensures staff == old(staff) && searchTerm == old(searchTerm)
    {
      if member.Some? {
        editingStaff := member;
        formData := member.value;
      } else {
        editingStaff := None;
        formData := BlankForm;
      }
      isModalOpen := true;
    }

    method CloseModal()
      modifies this
      ensures !isModalOpen && editingStaff == None
      ensures staff == old(staff) && searchTerm == old(searchTerm) && formData == old(formData)
    {
      isModalOpen := false;
      editingStaff := None;
    }

    /**
     * `handleSubmit`: replace the edited record, or append the form under the id the
     * generator produces as written, then close the modal.
     */
    method HandleSubmit()
      modifies this
      ensures staff == (if old(editingStaff).Some?
                        then ReplaceById(old(staff), old(editingStaff).value.staffId, old(formData))
                        else AddStaff(old(staff), old(formData)))
      ensures !isModalOpen && editingStaff == None
      ensures searchTerm == old(searchTerm) && formData == old(formData)
    {
      if editingStaff.Some? {
        staff := ReplaceById(staff, editingStaff.value.staffId, formData);
      } else {
        staff := AddStaff(staff, formData);
      }
      CloseModal();
    }

    /**
     * The submission with the generator corrected: a new member gets `S` and the number
     * padded to three digits, which is fresh whenever every suffix is numeric.
     */
    method HandleSubmitCorrected()
      modifies this
      ensures staff == (if old(editingStaff).Some?
                        then ReplaceById(old(staff), old(editingStaff).value.staffId, old(formData))
                        else old(staff) + [old(formData).(staffId := CorrectedStaffId(old(staff)))])
      ensures old(editingStaff).None? && NumericSuffixes(old(staff)) ==>
                staff[|old(staff)|].staffId !in Ids(old(staff)) && NumericSuffixes(staff)
      ensures !isModalOpen && editingStaff == None
      ensures searchTerm == old(searchTerm) && formData == old(formData)
    {
      if editingStaff.Some? {
        staff := ReplaceById(staff, editingStaff.value.staffId, formData);
      } else {
        var newStaff := formData.(staffId := CorrectedStaffId(staff));
        assert NumericSuffixes(staff) ==>
                 newStaff.staffId !in Ids(staff) && NumericSuffixes(staff + [newStaff]) by {
          if NumericSuffixes(staff) {
            CorrectedStaffIdFresh(staff);
            CorrectedAddKeepsNumeric(staff, formData);
          }
        }
        staff := staff + [newStaff];
      }
      CloseModal();
    }

    /** `handleDelete`: after confirmation, drop every record with the id. */
    method HandleDelete(staffId: string, confirmed: bool)
      modifies this
      ensures staff == (if confirmed then RemoveById(old(staff), staffId) else old(staff))
      ensures isModalOpen == old(isModalOpen) && editingStaff == old(editingStaff)
      ensures searchTerm == old(searchTerm) && formData == old(formData)
    {
      if confirmed {
        staff := RemoveById(staff, staffId);
      }
    }

    /** Typing into the shift input stores its `", "`-separated pieces. */
    method EditShiftText(text: string)
      modifies this
      ensures formData == old(formData).(shift := StaffAdmin.ParseShiftText(text))
      ensures staff == old(staff) && searchTerm == old(searchTerm)
      ensures isModalOpen == old(isModalOpen) && editingStaff == old(editingStaff)
    {
      formData := formData.(shift := StaffAdmin.ParseShiftText(text));
    }
  }
}
