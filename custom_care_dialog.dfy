/** The dialog that adds a custom care to the schedule: three required
    fields, the age converted to a number, and a reset after success. */
module CustomCareDialog {
  import opened Common
  import CareSchedule

  datatype CareForm = CareForm(
    title: string,
    description: string,
    ageInMonths: string,
    stage: string,
    priority: string,
    category: string)

  /** The form the dialog opens with and returns to: priority 'medium',
      category 'custom', everything else empty. */
  const InitialCareForm := CareForm("", "", "", "", "medium", "custom")

  /** `handleSubmit`: `None` when the title, the age or the stage is empty
      (the callback is not called); otherwise the form with the age replaced
      by `parsedAge`, the number `parseFloat` makes of it. */
  function CarePayload(f: CareForm, parsedAge: real): (r: Option<CareSchedule.CareRequest>)
    ensures r.None? <==> f.title == "" || f.ageInMonths == "" || f.stage == ""
    ensures r.Some? ==> && r.value.title == f.title && r.value.description == f.description
                        && r.value.ageInMonths == parsedAge && r.value.stage == f.stage
                        && r.value.priority == f.priority && r.value.category == f.category
  {
    if f.title == "" || f.ageInMonths == "" || f.stage == "" then None
    else Some(CareSchedule.CareRequest(f.title, f.description, parsedAge, f.stage, f.priority, f.category))
  }

  /** An untouched form is always refused, and once the three required
      fields are filled in the priority and category need no input. */
  lemma DefaultsNeedOnlyRequiredFields(title: string, age: string, stage: string, parsedAge: real)
    ensures CarePayload(InitialCareForm, parsedAge).None?
    ensures title != "" && age != "" && stage != "" ==>
      var r := CarePayload(InitialCareForm.(title := title, ageInMonths := age, stage := stage), parsedAge);
      r.Some? && r.value.priority == "medium" && r.value.category == "custom"
  {
  }

  /** Whatever category the payload carries, the schedule files the new
      care under 'custom' with a 'custom-' id and keeps the rest of what
      was typed. */
  lemma PayloadBecomesCustomCare(f: CareForm, parsedAge: real, now: int)
    requires CarePayload(f, parsedAge).Some?
    ensures var c := CareSchedule.CustomCare(CarePayload(f, parsedAge).value, now);
      && c.category == "custom" && CareSchedule.CustomPrefix <= c.id
      && c.title == f.title && c.description == f.description && c.ageInMonths == parsedAge
      && c.stage == f.stage && c.priority == f.priority
  {
  }

  datatype CareField = TitleField | DescriptionField | AgeField | StageField | PriorityField

  function WithField(f: CareForm, field: CareField, value: string): CareForm {
    match field
    case TitleField => f.(title := value)
    case DescriptionField => f.(description := value)
    case AgeField => f.(ageInMonths := value)
    case StageField => f.(stage := value)
    case PriorityField => f.(priority := value)
  }

  class AddCustomCareDialog {
    var open: bool
    var form: CareForm

    constructor ()
      ensures !open && form == InitialCareForm
    {
      open := false;
      form := InitialCareForm;
    }

    method SetOpen(value: bool)
      modifies this
      ensures open == value && form == old(form)
    {
      open := value;
    }

    method SetField(field: CareField, value: string)
      modifies this
      ensures form == WithField(old(form), field, value) && open == old(open)
    {
      form := WithField(form, field, value);
    }

    /** Returns what `onAddCare` receives, if anything. A refused submission
        changes nothing; an accepted one restores the initial form and
        closes the dialog. */
    method Submit(parsedAge: real) returns (added: Option<CareSchedule.CareRequest>)
      modifies this
      ensures added == CarePayload(old(form), parsedAge)
      ensures added.None? ==> form == old(form) && open == old(open)
      ensures added.Some? ==> form == InitialCareForm && !open
    {
      added := CarePayload(form, parsedAge);
      if added.Some? {
        form := InitialCareForm;
        open := false;
      }
    }
  }
}
