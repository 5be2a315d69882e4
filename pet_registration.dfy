/** Pet registration: the form, the month-based age text it attaches, the
    gate that decides whether the pet is registered, and the breed list that
    follows the species. */
module PetRegistration {
  import opened Common
  import Age

  datatype RegistrationForm = RegistrationForm(
    name: string,
    species: string,
    breed: string,
    birthDate: string,
    gender: string,
    weight: string,
    medicalHistory: string)

  const EmptyRegistrationForm := RegistrationForm("", "", "", "", "", "", "")

  /** `{ ...formData, age }`: what `onPetRegistered` receives. */
  datatype RegisteredPet = RegisteredPet(form: RegistrationForm, age: string)

  const MonthsSuffix: string := " meses"
  const YearWord: string := " ano"

  /** `calculateAge`: '' without a birth date; under twelve months (a future
      birth date included) the signed month count and ' meses', even for one
      month; from twelve months on the whole years and ' ano', with an 's'
      only from two years. `birth` is what the host's date getters report
      for `birthDate`. */
  function AgeText(birthDate: string, today: Age.CalendarDate, birth: Age.CalendarDate): (r: string)
    ensures birthDate == "" ==> r == ""
    ensures birthDate != "" && Age.MonthsBetween(today, birth) < 12 ==>
      r == IntToString(Age.MonthsBetween(today, birth)) + MonthsSuffix
    ensures birthDate != "" && Age.MonthsBetween(today, birth) >= 12 ==>
      var years := Age.MonthsBetween(today, birth) / 12;
      years >= 1 && r == NatToString(years) + YearWord + (if years > 1 then "s" else "")
  {
    if birthDate == "" then ""
    else
      var months := Age.MonthsBetween(today, birth);
      if months < 12 then IntToString(months) + MonthsSuffix
      else
        var years := months / 12;
        NatToString(years) + YearWord + (if years > 1 then "s" else "")
  }

  /** The month text tells every month count apart. */
  lemma MonthTextsDiffer(m1: int, m2: int)
    requires IntToString(m1) + MonthsSuffix == IntToString(m2) + MonthsSuffix
    ensures m1 == m2
  {
    var s := IntToString(m1) + MonthsSuffix;
    assert s[..|s| - |MonthsSuffix|] == IntToString(m1);
    assert s[..|s| - |MonthsSuffix|] == IntToString(m2);
    IntToStringInjective(m1, m2);
  }

  /** Two ages of a year or more read the same exactly when they are in the
      same whole year. */
  lemma YearTextsAgree(m1: int, m2: int, b: string, t1: Age.CalendarDate, t2: Age.CalendarDate, birth: Age.CalendarDate)
    requires b != ""
    requires Age.MonthsBetween(t1, birth) == m1 >= 12 && Age.MonthsBetween(t2, birth) == m2 >= 12
    ensures AgeText(b, t1, birth) == AgeText(b, t2, birth) <==> m1 / 12 == m2 / 12
  {
    var y1, y2 := m1 / 12, m2 / 12;
    var s1, s2 := NatToString(y1), NatToString(y2);
    if AgeText(b, t1, birth) == AgeText(b, t2, birth) {
      var r := AgeText(b, t1, birth);
      assert r[0] == s1[0] == s2[0];
      YearTextsHead(y1, y2, r);
      NatToStringInjective(y1, y2);
    }
  }

  /** The digits of the year count are the text up to the first space. */
  lemma YearTextsHead(y1: nat, y2: nat, r: string)
    requires y1 >= 1 && y2 >= 1
    requires r == NatToString(y1) + YearWord + (if y1 > 1 then "s" else "")
    requires r == NatToString(y2) + YearWord + (if y2 > 1 then "s" else "")
    ensures NatToString(y1) == NatToString(y2)
  {
    var s1, s2 := NatToString(y1), NatToString(y2);
    assert s1 == r[..|s1|] && s2 == r[..|s2|];
  }

  /** `formData.name && formData.species && formData.birthDate`. */
  predicate CanSubmit(f: RegistrationForm) {
    f.name != "" && f.species != "" && f.birthDate != ""
  }

  /** The submit button's `disabled` expression. */
  predicate SubmitDisabled(f: RegistrationForm) {
    f.name == "" || f.species == "" || f.birthDate == ""
  }

  /** The button is disabled exactly when submitting would do nothing. */
  lemma DisabledIffRefused(f: RegistrationForm)
    ensures SubmitDisabled(f) <==> !CanSubmit(f)
  {
  }

  /** `handleSubmit`: the form plus its age text when the three required
      fields are filled in, nothing otherwise. */
  function Registration(f: RegistrationForm, today: Age.CalendarDate, birth: Age.CalendarDate): (r: Option<RegisteredPet>)
    ensures r.Some? <==> CanSubmit(f)
    ensures r.Some? ==> r.value.form == f && r.value.age == AgeText(f.birthDate, today, birth)
    ensures r.Some? ==> r.value.age != ""
  {
    if CanSubmit(f) then Some(RegisteredPet(f, AgeText(f.birthDate, today, birth))) else None
  }

  const DogBreeds: seq<string> := [
    "Labrador", "Golden Retriever", "Bulldog", "Pastor Alemão", "Beagle",
    "Poodle", "Rottweiler", "Yorkshire", "Chihuahua", "Boxer", "SRD (Sem Raça Definida)"
  ]

  const CatBreeds: seq<string> := [
    "Persa", "Siamês", "Maine Coon", "British Shorthair", "Ragdoll",
    "Bengal", "Sphynx", "Angorá", "SRD (Sem Raça Definida)"
  ]

  /** The breed options: the dog list for 'dog', the cat list for anything
      else (the breed select is disabled while no species is chosen). */
  function BreedOptions(species: string): (r: seq<string>)
    ensures species == "dog" ==> r == DogBreeds && |r| == 11
    ensures species != "dog" ==> r == CatBreeds && |r| == 9
    ensures "SRD (Sem Raça Definida)" in r
  {
    if species == "dog" then DogBreeds else CatBreeds
  }

  /** `disabled={!formData.species}` on the breed select, negated. */
  predicate BreedSelectEnabled(f: RegistrationForm) {
    f.species != ""
  }

  datatype RegistrationField = NameField | SpeciesField | BreedField | BirthDateField | GenderField | WeightField | MedicalHistoryField

  function WithField(f: RegistrationForm, field: RegistrationField, value: string): RegistrationForm {
    match field
    case NameField => f.(name := value)
    case SpeciesField => f.(species := value)
    case BreedField => f.(breed := value)
    case BirthDateField => f.(birthDate := value)
    case GenderField => f.(gender := value)
    case WeightField => f.(weight := value)
    case MedicalHistoryField => f.(medicalHistory := value)
  }

  /** Only the species field decides whether the breed select is enabled:
      typing a species enables it, clearing it disables it, and every other
      field leaves it as it was. Any form that can be submitted has it
      enabled. */
  lemma BreedSelectFollowsSpecies(f: RegistrationForm, field: RegistrationField, value: string)
    ensures field == SpeciesField ==> (BreedSelectEnabled(WithField(f, field, value)) <==> value != "")
    ensures field != SpeciesField ==> (BreedSelectEnabled(WithField(f, field, value)) <==> BreedSelectEnabled(f))
    ensures CanSubmit(f) ==> BreedSelectEnabled(f)
  {
  }

  class PetRegistrationScreen {
    var form: RegistrationForm

    constructor ()
      ensures form == EmptyRegistrationForm
    {
      form := EmptyRegistrationForm;
    }

    /** `handleInputChange(field, value)`. */
    method InputChange(field: RegistrationField, value: string)
      modifies this
      ensures form == WithField(old(form), field, value)
    {
      form := WithField(form, field, value);
    }

    /** Returns what `onPetRegistered` receives, if anything; the form stays
        as it is. */
    method Submit(today: Age.CalendarDate, birth: Age.CalendarDate) returns (r: Option<RegisteredPet>)
      ensures r.Some? <==> !SubmitDisabled(form)
      ensures r.Some? ==> r.value.form == form && r.value.age == AgeText(form.birthDate, today, birth)
    {
      DisabledIffRefused(form);
      r := Registration(form, today, birth);
    }
  }
}
