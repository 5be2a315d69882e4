/** The vaccination record: the add dialog and the edit form each validate a
    submission and normalise it (the status decides the applied date and the
    next due date), and the edit dialog replaces or removes records by id. */
module Vaccines {
  import opened Common

  /** A stored vaccination. Optional fields are `None` when the record holds
      `null` or lacks the field; `otherFields` stands for whatever further
      properties a record carries, which editing copies along. */
  datatype Vaccine = Vaccine(
    id: int,
    name: string,
    expectedDate: string,
    status: string,
    appliedDate: Option<string>,
    nextDue: Option<string>,
    manufacturer: Option<string>,
    batch: Option<string>,
    proofPhoto: Option<string>,
    otherFields: map<string, string>)

  // ---------------------------------------------------------------------
  // JavaScript defaulting with `||`

  /** `x || ''` for an optional string. */
  function OrEmpty(x: Option<string>): (r: string)
    ensures x.Some? ==> r == x.value
    ensures x.None? ==> r == ""
  {
    if x.Some? then x.value else ""
  }

  /** `s || null` for a form field: an empty field is stored as null. */
  function OrNull(s: string): (r: Option<string>)
    ensures r.None? <==> s == ""
    ensures r.Some? ==> r.value == s
  {
    if s == "" then None else Some(s)
  }

  /** `x || null` for an optional string: absent or empty becomes null. */
  function OptOrNull(x: Option<string>): (r: Option<string>)
    ensures r.None? <==> (x.None? || x.value == "")
    ensures r.Some? ==> r == x
  {
    if x.Some? && x.value != "" then x else None
  }

  // ---------------------------------------------------------------------
  // The status rules, shared by both forms

  /** `status === 'applied' ? appliedDate || expectedDate : null`. */
  function AppliedDateFor(status: string, appliedDate: string, expectedDate: string): (r: Option<string>)
    ensures r.Some? <==> status == "applied"
    ensures r.Some? && appliedDate != "" ==> r.value == appliedDate
    ensures r.Some? && appliedDate == "" ==> r.value == expectedDate
  {
    if status == "applied" then Some(if appliedDate != "" then appliedDate else expectedDate) else None
  }

  /** `status === 'pending' ? expectedDate : (nextDue || null)`. */
  function NextDueFor(status: string, expectedDate: string, nextDue: string): (r: Option<string>)
    ensures status == "pending" ==> r == Some(expectedDate)
    ensures status != "pending" ==> r == OrNull(nextDue)
  {
    if status == "pending" then Some(expectedDate) else OrNull(nextDue)
  }

  /** A record as a submission leaves it: required fields present, the two
      dates consistent with the status, and no optional field stored as an
      empty string. */
  ghost predicate Normalised(v: Vaccine) {
    && v.name != "" && v.expectedDate != ""
    && (v.status == "applied" <==> v.appliedDate.Some?)
    && (v.appliedDate.Some? ==> v.appliedDate.value != "")
    && (v.status == "pending" ==> v.nextDue == Some(v.expectedDate))
    && (v.nextDue.Some? ==> v.nextDue.value != "")
    && (v.manufacturer.Some? ==> v.manufacturer.value != "")
    && (v.batch.Some? ==> v.batch.value != "")
    && (v.proofPhoto.Some? ==> v.proofPhoto.value != "")
  }

  // ---------------------------------------------------------------------
  // Add dialog

  datatype VaccineForm = VaccineForm(
    name: string,
    expectedDate: string,
    status: string,
    appliedDate: string,
    nextDue: string)

  /** The empty form the dialog opens with and returns to. */
  const EmptyVaccineForm := VaccineForm("", "", "pending", "", "")

  /** `handleSubmit` of the add dialog: `None` when the name or the expected
      date is empty (the callback is not called); otherwise the new record,
      whose id is the clock reading `now`. */
  function NewVaccine(f: VaccineForm, now: int): (r: Option<Vaccine>)
    ensures r.None? <==> f.name == "" || f.expectedDate == ""
    ensures r.Some? ==> && r.value.id == now
                        && r.value.name == f.name && r.value.expectedDate == f.expectedDate
                        && r.value.status == f.status
                        && r.value.appliedDate == AppliedDateFor(f.status, f.appliedDate, f.expectedDate)
                        && r.value.nextDue == NextDueFor(f.status, f.expectedDate, f.nextDue)
                        && r.value.manufacturer.None? && r.value.batch.None? && r.value.proofPhoto.None?
  {
    if f.name == "" || f.expectedDate == "" then None
    else Some(Vaccine(now, f.name, f.expectedDate, f.status,
      AppliedDateFor(f.status, f.appliedDate, f.expectedDate),
      NextDueFor(f.status, f.expectedDate, f.nextDue),
      None, None, None, map[]))
  }

  /** Every accepted submission is normalised: an applied vaccine always has
      a non-empty applied date, any other status has none. */
  lemma NewVaccineNormalised(f: VaccineForm, now: int)
    requires NewVaccine(f, now).Some?
    ensures Normalised(NewVaccine(f, now).value)
  {
  }

  datatype VaccineField = NameField | ExpectedDateField | StatusField | AppliedDateField | NextDueField

  function WithField(f: VaccineForm, field: VaccineField, value: string): VaccineForm {
    match field
    case NameField => f.(name := value)
    case ExpectedDateField => f.(expectedDate := value)
    case StatusField => f.(status := value)
    case AppliedDateField => f.(appliedDate := value)
    case NextDueField => f.(nextDue := value)
  }

  class AddVaccineDialog {
    var open: bool
    var form: VaccineForm

    constructor ()
      ensures !open && form == EmptyVaccineForm
    {
      open := false;
      form := EmptyVaccineForm;
    }

    method SetOpen(value: bool)
      modifies this
      ensures open == value && form == old(form)
    {
      open := value;
    }

    /** One input's `onChange`. */
    method SetField(field: VaccineField, value: string)
      modifies this
      ensures form == WithField(old(form), field, value) && open == old(open)
    {
      form := WithField(form, field, value);
    }

    /** Returns the record handed to `onAddVaccine`, if any. A rejected
        submission changes nothing; an accepted one resets the form and
        closes the dialog. */
    method Submit(now: int) returns (added: Option<Vaccine>)
      modifies this
      ensures added == NewVaccine(old(form), now)
      ensures added.None? ==> form == old(form) && open == old(open)
      ensures added.Some? ==> form == EmptyVaccineForm && !open
    {
      added := NewVaccine(form, now);
      if added.Some? {
        form := EmptyVaccineForm;
        open := false;
      }
    }
  }

  // ---------------------------------------------------------------------
  // Edit form

  datatype EditForm = EditForm(
    name: string,
    expectedDate: string,
    status: string,
    appliedDate: string,
    nextDue: string,
    manufacturer: string,
    batch: string,
    proofPhoto: Option<string>)

  /** The form filled from a stored record: missing optional texts become
      '', a missing or empty photo becomes null. */
  function InitialEditForm(v: Vaccine): (f: EditForm)
    ensures f.name == v.name && f.expectedDate == v.expectedDate && f.status == v.status
    ensures f.appliedDate == OrEmpty(v.appliedDate) && f.nextDue == OrEmpty(v.nextDue)
    ensures f.manufacturer == OrEmpty(v.manufacturer) && f.batch == OrEmpty(v.batch)
    ensures f.proofPhoto == OptOrNull(v.proofPhoto)
  {
    EditForm(v.name, v.expectedDate, v.status, OrEmpty(v.appliedDate), OrEmpty(v.nextDue),
      OrEmpty(v.manufacturer), OrEmpty(v.batch), OptOrNull(v.proofPhoto))
  }

  /** `handleSubmit` of the edit form: `None` when the name or the expected
      date is empty; otherwise the original record with the form's fields
      written over it, under the same status rules as the add dialog, and
      with an empty manufacturer or batch stored as null. The id and any
      other field are kept. */
  function UpdatedVaccine(v: Vaccine, f: EditForm): (r: Option<Vaccine>)
    ensures r.None? <==> f.name == "" || f.expectedDate == ""
    ensures r.Some? ==> && r.value.id == v.id && r.value.otherFields == v.otherFields
                        && r.value.name == f.name && r.value.expectedDate == f.expectedDate
                        && r.value.status == f.status
                        && r.value.appliedDate == AppliedDateFor(f.status, f.appliedDate, f.expectedDate)
                        && r.value.nextDue == NextDueFor(f.status, f.expectedDate, f.nextDue)
                        && r.value.manufacturer == OrNull(f.manufacturer)
                        && r.value.batch == OrNull(f.batch)
                        && r.value.proofPhoto == f.proofPhoto
  {
    if f.name == "" || f.expectedDate == "" then None
    else Some(v.(name := f.name, expectedDate := f.expectedDate, status := f.status,
      appliedDate := AppliedDateFor(f.status, f.appliedDate, f.expectedDate),
      nextDue := NextDueFor(f.status, f.expectedDate, f.nextDue),
      manufacturer := OrNull(f.manufacturer), batch := OrNull(f.batch),
      proofPhoto := f.proofPhoto))
  }

  /** Saving the edit form without touching it gives back the very record
      it was opened on, provided that record was normalised. */
  lemma EditUnchangedIsIdentity(v: Vaccine)
    requires Normalised(v)
    ensures UpdatedVaccine(v, InitialEditForm(v)) == Some(v)
  {
  }

  /** An edit only yields normalised records when the photo is absent or
      non-empty; saving twice in a row changes nothing the second time. */
  lemma EditTwiceIsEditOnce(v: Vaccine, f: EditForm)
    requires UpdatedVaccine(v, f).Some?
    requires f.proofPhoto.Some? ==> f.proofPhoto.value != ""
    ensures Normalised(UpdatedVaccine(v, f).value)
    ensures UpdatedVaccine(UpdatedVaccine(v, f).value, InitialEditForm(UpdatedVaccine(v, f).value)) == UpdatedVaccine(v, f)
  {
    EditUnchangedIsIdentity(UpdatedVaccine(v, f).value);
  }

  datatype EditField = EditName | EditExpectedDate | EditStatus | EditAppliedDate | EditNextDue | EditManufacturer | EditBatch

  function WithEditField(f: EditForm, field: EditField, value: string): EditForm {
    match field
    case EditName => f.(name := value)
    case EditExpectedDate => f.(expectedDate := value)
    case EditStatus => f.(status := value)
    case EditAppliedDate => f.(appliedDate := value)
    case EditNextDue => f.(nextDue := value)
    case EditManufacturer => f.(manufacturer := value)
    case EditBatch => f.(batch := value)
  }

  class VaccinationEditForm {
    const vaccine: Vaccine
    var form: EditForm

    constructor (vaccine: Vaccine)
      ensures this.vaccine == vaccine && form == InitialEditForm(vaccine)
    {
      this.vaccine := vaccine;
      form := InitialEditForm(vaccine);
    }

    method SetField(field: EditField, value: string)
      modifies this
      ensures form == WithEditField(old(form), field, value)
    {
      form := WithEditField(form, field, value);
    }

    /** The upload handler once the file has been read: `dataUrl` is the
        reader's result. */
    method SetProofPhoto(dataUrl: string)
      modifies this
      ensures form == old(form).(proofPhoto := Some(dataUrl))
    {
      form := form.(proofPhoto := Some(dataUrl));
    }

    /** Returns the record handed to `onUpdate`, if any; the form is left as
        it is either way. */
    method Submit() returns (updated: Option<Vaccine>)
      ensures updated.None? <==> form.name == "" || form.expectedDate == ""
      ensures updated.Some? ==> updated.value.id == vaccine.id && updated.value.otherFields == vaccine.otherFields
      ensures updated == UpdatedVaccine(vaccine, form)
    {
      updated := UpdatedVaccine(vaccine, form);
    }
  }

  // ---------------------------------------------------------------------
  // Edit dialog: replace and remove by id

  function ReplaceIfId(id: int, updated: Vaccine): Vaccine -> Vaccine {
    (v: Vaccine) => if v.id == id then updated else v
  }

  /** `vaccinations.map(v => v.id === id ? updated : v)`: the records with
      the id become `updated`, every other record and the length stay. */
  function ReplacedById(vs: seq<Vaccine>, id: int, updated: Vaccine): (r: seq<Vaccine>)
    ensures |r| == |vs|
    ensures forall i :: 0 <= i < |vs| && vs[i].id == id ==> r[i] == updated
    ensures forall i :: 0 <= i < |vs| && vs[i].id != id ==> r[i] == vs[i]
  {
    MapSeq(vs, ReplaceIfId(id, updated))
  }

  function VaccineId(v: Vaccine): int {
    v.id
  }

  /** Replacing by a record with the same id keeps the list's ids, position
      by position. */
  lemma ReplacedKeepsIds(vs: seq<Vaccine>, id: int, updated: Vaccine)
    requires updated.id == id
    ensures MapSeq(ReplacedById(vs, id, updated), VaccineId) == MapSeq(vs, VaccineId)
  {
  }

  /** With distinct ids, putting back the record that is there already is no
      change. */
  lemma ReplacedBySelf(vs: seq<Vaccine>, k: nat)
    requires k < |vs|
    requires forall i, j :: 0 <= i < j < |vs| ==> vs[i].id != vs[j].id
    ensures ReplacedById(vs, vs[k].id, vs[k]) == vs
  {
    var r := ReplacedById(vs, vs[k].id, vs[k]);
    assert forall i :: 0 <= i < |vs| ==> r[i] == vs[i];
  }

  function IdIsNot(id: int): Vaccine -> bool {
    (v: Vaccine) => v.id != id
  }

  function IdIs(id: int): Vaccine -> bool {
    (v: Vaccine) => v.id == id
  }

  /** `vaccinations.filter(v => v.id !== id)`. */
  function RemovedById(vs: seq<Vaccine>, id: int): (r: seq<Vaccine>)
    ensures forall v :: v in r <==> v in vs && v.id != id
  {
    Filter(vs, IdIsNot(id))
  }

  /** Exactly the records with the id go, the rest keep their order. */
  lemma RemovedExactly(vs: seq<Vaccine>, ws: seq<Vaccine>, id: int)
    ensures |RemovedById(vs, id)| + |Filter(vs, IdIs(id))| == |vs|
    ensures RemovedById(vs + ws, id) == RemovedById(vs, id) + RemovedById(ws, id)
    ensures (forall i :: 0 <= i < |vs| ==> vs[i].id != id) ==> RemovedById(vs, id) == vs
  {
    FilterSplit(vs, IdIsNot(id), IdIs(id));
    FilterConcat(vs, ws, IdIsNot(id));
    if forall i :: 0 <= i < |vs| ==> vs[i].id != id {
      FilterKeepsAll(vs, IdIsNot(id));
    }
  }

  /** The dialog. `vaccinations` is the list its parent passes in; each
      `onUpdateVaccinations` call is modelled as storing the new list. */
  class EditVaccinationDialog {
    var vaccinations: seq<Vaccine>
    var editing: Option<Vaccine>

    constructor (vaccinations: seq<Vaccine>)
      ensures this.vaccinations == vaccinations && editing.None?
    {
      this.vaccinations := vaccinations;
      editing := None;
    }

    method Edit(v: Vaccine)
      modifies this
      ensures editing == Some(v) && vaccinations == old(vaccinations)
    {
      editing := Some(v);
    }

    /** `handleUpdate`, which the edit form only reaches while a record is
        being edited. */
    method Update(updated: Vaccine)
      requires editing.Some?
      modifies this
      ensures vaccinations == ReplacedById(old(vaccinations), old(editing).value.id, updated)
      ensures editing.None?
    {
      vaccinations := ReplacedById(vaccinations, editing.value.id, updated);
      editing := None;
    }

    method Delete(id: int)
      modifies this
      ensures vaccinations == RemovedById(old(vaccinations), id) && editing == old(editing)
    {
      vaccinations := RemovedById(vaccinations, id);
    }

    method Cancel()
      modifies this
      ensures editing.None? && vaccinations == old(vaccinations)
    {
      editing := None;
    }
  }
}
