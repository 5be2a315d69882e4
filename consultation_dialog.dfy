/** The dialog that records a veterinary consultation: date and reason are
    required, vet and observations are optional, and the form is cleared after
    success. */
module ConsultationDialog {
  import opened Common

  datatype Consultation = Consultation(date: string, reason: string, observations: string, vet: string)

  const EmptyConsultation := Consultation("", "", "", "")

  /** `handleSubmit`: nothing when the date or the reason is empty;
      otherwise the four fields exactly as typed, empty vet and observations
      included. */
  function ConsultationPayload(f: Consultation): (r: Option<Consultation>)
    ensures r.None? <==> f.date == "" || f.reason == ""
    ensures r.Some? ==> r.value == f
  {
    if f.date == "" || f.reason == "" then None else Some(f)
  }

  /** The optional fields never decide acceptance. */
  lemma OptionalFieldsIgnored(f: Consultation, observations: string, vet: string)
    ensures ConsultationPayload(f.(observations := observations, vet := vet)).Some? <==> ConsultationPayload(f).Some?
  {
  }

  datatype ConsultationField = DateField | ReasonField | ObservationsField | VetField

  /** `handleInputChange(field, value)`: one field replaced, the others
      kept. */
  function WithField(f: Consultation, field: ConsultationField, value: string): Consultation {
    match field
    case DateField => f.(date := value)
    case ReasonField => f.(reason := value)
    case ObservationsField => f.(observations := value)
    case VetField => f.(vet := value)
  }

  /** Filling in date and reason on the empty form is enough to be
      accepted. */
  lemma DateAndReasonSuffice(date: string, reason: string)
    requires date != "" && reason != ""
    ensures ConsultationPayload(WithField(WithField(EmptyConsultation, DateField, date), ReasonField, reason))
      == Some(Consultation(date, reason, "", ""))
  {
  }

  class AddConsultationDialog {
    var open: bool
    var form: Consultation

    constructor ()
      ensures !open && form == EmptyConsultation
    {
      open := false;
      form := EmptyConsultation;
    }

    method SetOpen(value: bool)
      modifies this
      ensures open == value && form == old(form)
    {
      open := value;
    }

    method InputChange(field: ConsultationField, value: string)
      modifies this
      ensures form == WithField(old(form), field, value) && open == old(open)
    {
      form := WithField(form, field, value);
    }

    /** Returns what `onAddConsultation` receives, if anything. A refused
        submission changes nothing; an accepted one clears all four fields
        and closes the dialog. */
    method Submit() returns (added: Option<Consultation>)
      modifies this
      ensures added == ConsultationPayload(old(form))
      ensures added.None? ==> form == old(form) && open == old(open)
      ensures added.Some? ==> form == EmptyConsultation && !open
    {
      added := ConsultationPayload(form);
      if added.Some? {
        form := EmptyConsultation;
        open := false;
      }
    }
  }
}
