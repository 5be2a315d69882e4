/** The pet dashboard: its own, coarser age text, the delete request, and the
    switch between the dashboard and its two sub-screens. */
module PetDashboard {
  import opened Common
  import Age
  import HomePage

  /** `calculateAge` of the dashboard: '0 meses' without a birth date;
      whole years when there is at least one, the remaining months dropped;
      otherwise 'M mes' for one month and 'M meses' for any other count. */
  function DashboardAgeText(birthDate: string, todayMs: int, birthMs: int): (r: string)
    ensures birthDate == "" ==> r == "0 meses"
    ensures birthDate != "" ==>
      var p := HomePage.SplitDays(Age.ElapsedDays(todayMs, birthMs));
      && (p.years > 0 ==> r == HomePage.Counted(p.years, " ano", "s"))
      && (p.years == 0 ==> r == NatToString(p.totalMonths) + " mes" + (if p.totalMonths != 1 then "es" else ""))
  {
    if birthDate == "" then "0 meses"
    else
      var p := HomePage.SplitDays(Age.ElapsedDays(todayMs, birthMs));
      if p.years > 0 then HomePage.Counted(p.years, " ano", "s")
      else NatToString(p.totalMonths) + " mes" + (if p.totalMonths != 1 then "es" else "")
  }

  /** Past a year, the dashboard and the home page agree whenever the months
      divide evenly into years; the dashboard drops the remaining months. */
  lemma AgreesWithHomePageOnWholeYears(birthDate: string, todayMs: int, birthMs: int)
    requires birthDate != ""
    requires var p := HomePage.SplitDays(Age.ElapsedDays(todayMs, birthMs)); p.years > 0 && p.months == 0
    ensures DashboardAgeText(birthDate, todayMs, birthMs) == HomePage.DayAgeText(birthDate, todayMs, birthMs)
  {
  }

  /** Under a month the dashboard says '0 meses' where the home page counts
      days. */
  lemma UnderAMonthIsZeroMonths(birthDate: string, todayMs: int, birthMs: int)
    requires birthDate != "" && Age.ElapsedDays(todayMs, birthMs) < 30
    ensures DashboardAgeText(birthDate, todayMs, birthMs) == "0 meses"
  {
  }

  /** A future birth date reads like a past one at the same distance. */
  lemma DashboardAgeSymmetric(birthDate: string, todayMs: int, distance: int)
    ensures DashboardAgeText(birthDate, todayMs, todayMs - distance) == DashboardAgeText(birthDate, todayMs, todayMs + distance)
  {
    Age.ElapsedDaysSymmetric(todayMs, todayMs, distance);
  }

  datatype ActiveScreen = Dashboard | Tutorials | Development

  class PetDashboardScreen {
    const pet: HomePage.Pet
    var activeScreen: ActiveScreen

    constructor (pet: HomePage.Pet)
      ensures this.pet == pet && activeScreen == Dashboard
    {
      this.pet := pet;
      activeScreen := Dashboard;
    }

    /** The 'Desenvolvimento' button. */
    method OpenDevelopment()
      modifies this
      ensures activeScreen == Development
    {
      activeScreen := Development;
    }

    /** The 'Tutoriais' button. */
    method OpenTutorials()
      modifies this
      ensures activeScreen == Tutorials
    {
      activeScreen := Tutorials;
    }

    /** The `onBack` each sub-screen receives. */
    method BackToDashboard()
      modifies this
      ensures activeScreen == Dashboard
    {
      activeScreen := Dashboard;
    }

    /** `handleDeletePet`: the id handed to `onDelete`, when the parent
        supplies one. */
    method DeletePet() returns (petId: int)
      ensures petId == pet.id
    {
      petId := pet.id;
    }
  }
}
