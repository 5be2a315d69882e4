/** The home page: which screen is shown, the pet list that registration
    appends to, the day-based age text on each pet card, the next-event
    colour, text and urgency, and the notification bell. */
module HomePage {
  import opened Common
  import Age
  import PetRegistration

  datatype PetEvent = PetEvent(kind: string, title: string, date: string, daysLeft: int)

  /** A pet as the home page keeps it. The optional fields are the ones the
      cards guard against being absent. */
  datatype Pet = Pet(
    id: int,
    form: PetRegistration.RegistrationForm,
    age: string,
    vaccinationProgress: Option<int>,
    nextEvent: Option<PetEvent>,
    notifications: Option<int>)

  /** The event every newly registered pet starts with. */
  const FirstEvent := PetEvent("vaccination", "Vacina Antirrábica", "2025-01-15", 24)

  /** `handlePetRegistered`'s record: the registration payload with the clock
      reading `now` as id, 60% vaccination progress, the first event and two
      notifications. */
  function PetWithProgress(newPet: PetRegistration.RegisteredPet, now: int): (p: Pet)
    ensures p.form == newPet.form && p.age == newPet.age && p.id == now
    ensures p.vaccinationProgress == Some(60) && p.nextEvent == Some(FirstEvent) && p.notifications == Some(2)
  {
    Pet(now, newPet.form, newPet.age, Some(60), Some(FirstEvent), Some(2))
  }

  // ---------------------------------------------------------------------
  // Day-based age

  /** Elapsed days split the way the page counts them: 30-day months,
      12-month years. */
  datatype AgeParts = AgeParts(years: nat, months: nat, days: nat, totalMonths: nat)

  function SplitDays(days: nat): (p: AgeParts)
    ensures p.days == days && p.totalMonths == p.years * 12 + p.months && p.months < 12
    ensures p.totalMonths * 30 <= days < (p.totalMonths + 1) * 30
  {
    var m := days / 30;
    AgeParts(m / 12, m % 12, days, m)
  }

  /** `count` followed by `word`, with `plural` appended when count > 1. */
  function Counted(count: nat, word: string, plural: string): string {
    NatToString(count) + word + (if count > 1 then plural else "")
  }

  const NoAge: string := "Idade não informada"

  /** `calculateAge` of the home page: the absolute distance between now and
      the birth instant (milliseconds), rounded up to days; years with the
      remaining months when there are any, else months, else days. */
  function DayAgeText(birthDate: string, todayMs: int, birthMs: int): (r: string)
    ensures birthDate == "" ==> r == NoAge
    ensures birthDate != "" ==>
      var p := SplitDays(Age.ElapsedDays(todayMs, birthMs));
      && (p.years > 0 && p.months > 0 ==> r == Counted(p.years, " ano", "s") + " e " + Counted(p.months, " mês", "es"))
      && (p.years > 0 && p.months == 0 ==> r == Counted(p.years, " ano", "s"))
      && (p.years == 0 && p.totalMonths > 0 ==> r == Counted(p.totalMonths, " mês", "es"))
      && (p.totalMonths == 0 ==> r == Counted(p.days, " dia", "s"))
  {
    if birthDate == "" then NoAge
    else
      var p := SplitDays(Age.ElapsedDays(todayMs, birthMs));
      if p.years > 0 then
        if p.months > 0 then Counted(p.years, " ano", "s") + " e " + Counted(p.months, " mês", "es")
        else Counted(p.years, " ano", "s")
      else if p.totalMonths > 0 then Counted(p.totalMonths, " mês", "es")
      else Counted(p.days, " dia", "s")
  }

  /** A birth date in the future gives the same text as one equally far in
      the past. */
  lemma DayAgeSymmetric(birthDate: string, todayMs: int, distance: int)
    ensures DayAgeText(birthDate, todayMs, todayMs - distance) == DayAgeText(birthDate, todayMs, todayMs + distance)
  {
    Age.ElapsedDaysSymmetric(todayMs, todayMs, distance);
  }

  /** Born at this very instant: zero days, written without the plural. */
  lemma SameInstantIsZeroDays(birthDate: string, nowMs: int)
    requires birthDate != ""
    ensures DayAgeText(birthDate, nowMs, nowMs) == "0 dia"
  {
  }

  /** Up to 29 days the text counts days; from 30 days on it never does. */
  lemma DaysOnlyUnderAMonth(birthDate: string, todayMs: int, birthMs: int)
    requires birthDate != ""
    ensures Age.ElapsedDays(todayMs, birthMs) < 30 <==>
      DayAgeText(birthDate, todayMs, birthMs) == Counted(Age.ElapsedDays(todayMs, birthMs), " dia", "s")
  {
    var d := Age.ElapsedDays(todayMs, birthMs);
    var p := SplitDays(d);
    if d >= 30 {
      if p.years > 0 {
        CountedWordsDiffer(d, " dia", "s", p.years, " ano", "s", if p.months > 0 then " e " + Counted(p.months, " mês", "es") else "");
      } else {
        CountedWordsDiffer(d, " dia", "s", p.totalMonths, " mês", "es", "");
      }
    }
  }

  /** Two counted words with different spellings never produce the same
      text: after the digits, the letter that follows tells them apart. */
  lemma CountedWordsDiffer(a: nat, w1: string, p1: string, b: nat, w2: string, p2: string, tail: string)
    requires |w1| >= 2 && |w2| >= 2 && w1[0] == ' ' && w2[0] == ' ' && w1[1] != w2[1]
    ensures Counted(a, w1, p1) != Counted(b, w2, p2) + tail
  {
    var s1, s2 := NatToString(a), NatToString(b);
    var x, y := Counted(a, w1, p1), Counted(b, w2, p2) + tail;
    if |s1| == |s2| {
      assert x[|s1| + 1] == w1[1] && y[|s2| + 1] == w2[1];
    } else if |s1| < |s2| {
      assert x[|s1|] == ' ' && y[|s1|] == s2[|s1|];
    } else {
      assert y[|s2|] == ' ' && x[|s2|] == s1[|s2|];
    }
  }

  // ---------------------------------------------------------------------
  // Next event

  datatype EventColour = Red | Orange | Green

  /** `getEventColor`: red up to a week, orange up to two, green after. */
  function EventColor(daysLeft: int): (c: EventColour)
    ensures c == Red <==> daysLeft <= 7
    ensures c == Orange <==> 8 <= daysLeft <= 14
    ensures c == Green <==> daysLeft > 14
  {
    if daysLeft <= 7 then Red else if daysLeft <= 14 then Orange else Green
  }

  /** 'Hoje!' on the day, otherwise 'Em N dia' with the plural only above
      one. */
  function NextEventText(daysLeft: int): (r: string)
    ensures r == "Hoje!" <==> daysLeft == 0
    ensures daysLeft != 0 ==> r == "Em " + IntToString(daysLeft) + " dia" + (if daysLeft > 1 then "s" else "")
  {
    if daysLeft == 0 then "Hoje!" else "Em " + IntToString(daysLeft) + " dia" + (if daysLeft > 1 then "s" else "")
  }

  /** The 'Urgente' tag: `pet.nextEvent?.daysLeft <= 7`, false without an
      event, true on the day itself. */
  predicate Urgent(p: Pet) {
    p.nextEvent.Some? && p.nextEvent.value.daysLeft <= 7
  }

  /** A pet is tagged urgent exactly when its event box is red. */
  lemma UrgentIffRed(p: Pet)
    ensures Urgent(p) <==> p.nextEvent.Some? && EventColor(p.nextEvent.value.daysLeft) == Red
  {
  }

  // ---------------------------------------------------------------------
  // Notification bell

  /** `pet.notifications || 0`. */
  function NotificationsOrZero(p: Pet): int {
    if p.notifications.Some? then p.notifications.value else 0
  }

  /** The `reduce` total shown in the bell. */
  function BellTotal(pets: seq<Pet>): int {
    if pets == [] then 0 else NotificationsOrZero(pets[0]) + BellTotal(pets[1..])
  }

  /** `pet.notifications > 0`, which is false when the field is absent. */
  predicate HasNotifications(p: Pet) {
    p.notifications.Some? && p.notifications.value > 0
  }

  /** `pets.some(pet => pet.notifications > 0)`. */
  predicate BellShown(pets: seq<Pet>) {
    exists i :: 0 <= i < |pets| && HasNotifications(pets[i])
  }

  /** With no negative counts, the bell is shown exactly when its total is
      positive. */
  lemma {:induction false} BellShownIffTotalPositive(pets: seq<Pet>)
    requires forall i :: 0 <= i < |pets| ==> NotificationsOrZero(pets[i]) >= 0
    ensures BellTotal(pets) >= 0
    ensures BellShown(pets) <==> BellTotal(pets) > 0
  {
    if pets != [] {
      var rest := pets[1..];
      assert forall i :: 0 <= i < |rest| ==> NotificationsOrZero(rest[i]) >= 0 by {
        forall i | 0 <= i < |rest| ensures NotificationsOrZero(rest[i]) >= 0 {
          assert rest[i] == pets[i + 1];
        }
      }
      BellShownIffTotalPositive(rest);
      if BellShown(rest) {
        var i :| 0 <= i < |rest| && HasNotifications(rest[i]);
        assert pets[i + 1] == rest[i];
      }
      if BellShown(pets) && !HasNotifications(pets[0]) {
        var i :| 0 <= i < |pets| && HasNotifications(pets[i]);
        assert rest[i - 1] == pets[i];
      }
    }
  }

  /** Registering a pet adds its two notifications to the bell. */
  lemma {:induction false} BellTotalAppend(pets: seq<Pet>, p: Pet)
    ensures BellTotal(pets + [p]) == BellTotal(pets) + NotificationsOrZero(p)
  {
    if pets == [] {
      assert pets + [p] == [p];
    } else {
      assert (pets + [p])[1..] == pets[1..] + [p];
      BellTotalAppend(pets[1..], p);
    }
  }

  // ---------------------------------------------------------------------
  // Page state

  datatype Screen = AuthScreen | DashboardScreen(pet: Pet) | RegistrationScreen | PetListScreen

  /** What the page renders: the sign-in screen until authenticated, then a
      selected pet's dashboard, then the registration form, then the list. */
  function ScreenFor(isAuthenticated: bool, selectedPet: Option<Pet>, showRegistration: bool): (s: Screen)
    ensures s == AuthScreen <==> !isAuthenticated
    ensures s.DashboardScreen? <==> isAuthenticated && selectedPet.Some?
    ensures s.DashboardScreen? ==> s.pet == selectedPet.value
    ensures s == RegistrationScreen <==> isAuthenticated && selectedPet.None? && showRegistration
  {
    if !isAuthenticated then AuthScreen
    else if selectedPet.Some? then DashboardScreen(selectedPet.value)
    else if showRegistration then RegistrationScreen
    else PetListScreen
  }

  class Index {
    var isAuthenticated: bool
    var pets: seq<Pet>
    var showRegistration: bool
    var selectedPet: Option<Pet>

    constructor ()
      ensures !isAuthenticated && pets == [] && !showRegistration && selectedPet.None?
    {
      isAuthenticated := false;
      pets := [];
      showRegistration := false;
      selectedPet := None;
    }

    function Screen(): Screen
      reads this
    {
      ScreenFor(isAuthenticated, selectedPet, showRegistration)
    }

    method AuthSuccess()
      modifies this
      ensures isAuthenticated
      ensures pets == old(pets) && showRegistration == old(showRegistration) && selectedPet == old(selectedPet)
    {
      isAuthenticated := true;
    }

    method SetShowRegistration(value: bool)
      modifies this
      ensures showRegistration == value
      ensures isAuthenticated == old(isAuthenticated) && pets == old(pets) && selectedPet == old(selectedPet)
    {
      showRegistration := value;
    }

    /** `handlePetRegistered`: one pet appended, the others kept, and back to
        the list. */
    method PetRegistered(newPet: PetRegistration.RegisteredPet, now: int)
      modifies this
      ensures pets == old(pets) + [PetWithProgress(newPet, now)]
      ensures BellTotal(pets) == BellTotal(old(pets)) + 2
      ensures !showRegistration
      ensures isAuthenticated == old(isAuthenticated) && selectedPet == old(selectedPet)
    {
      BellTotalAppend(pets, PetWithProgress(newPet, now));
      pets := pets + [PetWithProgress(newPet, now)];
      showRegistration := false;
    }

    method SelectPet(p: Pet)
      modifies this
      ensures selectedPet == Some(p)
      ensures isAuthenticated == old(isAuthenticated) && pets == old(pets) && showRegistration == old(showRegistration)
    {
      selectedPet := Some(p);
    }

    /** The dashboard's back button. */
    method BackToList()
      modifies this
      ensures selectedPet.None?
      ensures isAuthenticated == old(isAuthenticated) && pets == old(pets) && showRegistration == old(showRegistration)
    {
      selectedPet := None;
    }
  }
}
