/** The care schedule card: the fixed table of recommended cares, the status
    of each care relative to the pet's age in months, the completed set, the
    custom cares the user adds, the stage and status filters, the list shown
    sorted by age, and the counters under it. */
module CareSchedule {
  import opened Common
  import Age

  /** One scheduled care. `ageInMonths` is fractional (2.5, 3.5, and custom
      cares in steps of 0.5). */
  datatype Care = Care(
    id: string,
    title: string,
    description: string,
    ageInMonths: real,
    category: string,
    stage: string,
    priority: string)

  /** The payload the custom-care dialog hands over: its form with the age
      already converted to a number. */
  datatype CareRequest = CareRequest(
    title: string,
    description: string,
    ageInMonths: real,
    stage: string,
    priority: string,
    category: string)

  /** The default schedule, in the order the card declares it. */
  const DefaultSchedule: seq<Care> := [
    Care("v10-1", "Primeira dose V10",
      "Primeira vacinação múltipla contra cinomose, hepatite, parainfluenza, parvovirose, etc.",
      1.0, "vaccination", "filhote", "high"),
    Care("deworming-1", "Vermífugo",
      "Primeira aplicação de vermífugo para controle de parasitas intestinais",
      2.0, "medication", "filhote", "high"),
    Care("v10-2", "Segunda dose V10", "Reforço da vacinação múltipla",
      2.5, "vaccination", "filhote", "high"),
    Care("v10-3", "Terceira dose V10", "Última dose da série inicial de vacinação múltipla",
      3.5, "vaccination", "filhote", "high"),
    Care("rabies-1", "Vacina Antirrábica", "Primeira dose da vacina contra raiva",
      4.0, "vaccination", "filhote", "high"),
    Care("castration", "Castração recomendada", "Período ideal para castração (consulte seu veterinário)",
      6.0, "surgery", "jovem", "medium"),
    Care("deworming-2", "Vermífugo (reforço)", "Segunda aplicação de vermífugo",
      6.0, "medication", "jovem", "medium"),
    Care("annual-checkup", "Consulta anual", "Consulta de rotina e check-up geral",
      12.0, "checkup", "adulto", "medium"),
    Care("rabies-annual", "Reforço antirrábica", "Reforço anual da vacina antirrábica",
      12.0, "vaccination", "adulto", "high"),
    Care("v10-annual", "Reforço V10", "Reforço anual da vacinação múltipla",
      12.0, "vaccination", "adulto", "high")
  ]

  /** Prefix of every custom care id. */
  const CustomPrefix: string := "custom-"

  /** The default ids are pairwise distinct, and none of them looks like a
      custom id. */
  lemma DefaultScheduleIds()
    ensures forall i, j :: 0 <= i < j < |DefaultSchedule| ==> DefaultSchedule[i].id != DefaultSchedule[j].id
    ensures forall i :: 0 <= i < |DefaultSchedule| ==> !(CustomPrefix <= DefaultSchedule[i].id)
  {
    forall i | 0 <= i < |DefaultSchedule| ensures !(CustomPrefix <= DefaultSchedule[i].id) {
      var id := DefaultSchedule[i].id;
      assert |id| >= 2 && id[1] != CustomPrefix[1];
    }
  }

  /** The default table is already listed in age order. */
  lemma DefaultScheduleInAgeOrder()
    ensures SortedBy(DefaultSchedule, AgeKey)
  {
  }

  // ---------------------------------------------------------------------
  // Status by age

  datatype Status = Overdue | Current | Upcoming

  /** `getStatusByAge`: a care is overdue from one month after its age on,
      current during the month that starts at its age, and upcoming before. */
  function StatusByAge(currentAge: int, careAge: real): (s: Status)
    ensures s == Overdue <==> currentAge as real >= careAge + 1.0
    ensures s == Current <==> careAge <= currentAge as real < careAge + 1.0
    ensures s == Upcoming <==> currentAge as real < careAge
  {
    if currentAge as real >= careAge + 1.0 then Overdue
    else if currentAge as real >= careAge then Current
    else Upcoming
  }

  /** As the pet grows, a care only moves forward: upcoming, then current,
      then overdue. */
  lemma StatusMonotone(age1: int, age2: int, careAge: real)
    requires age1 <= age2
    ensures StatusByAge(age1, careAge) == Overdue ==> StatusByAge(age2, careAge) == Overdue
    ensures StatusByAge(age2, careAge) == Upcoming ==> StatusByAge(age1, careAge) == Upcoming
  {
  }

  // ---------------------------------------------------------------------
  // Filters

  /** The stage selector: 'all' or one stage name. */
  predicate StageMatches(care: Care, filterStage: string) {
    filterStage == "all" || care.stage == filterStage
  }

  /** The status selector: 'all', a status bucket, or 'completed'. */
  predicate DateMatches(care: Care, filterDate: string, currentAge: int, completed: set<string>) {
    var status := StatusByAge(currentAge, care.ageInMonths);
    || filterDate == "all"
    || (filterDate == "current" && status == Current)
    || (filterDate == "overdue" && status == Overdue)
    || (filterDate == "upcoming" && status == Upcoming)
    || (filterDate == "completed" && care.id in completed)
  }

  function Shown(filterStage: string, filterDate: string, currentAge: int, completed: set<string>): Care -> bool {
    (c: Care) => StageMatches(c, filterStage) && DateMatches(c, filterDate, currentAge, completed)
  }

  /** `filteredCares`: the cares that pass both selectors, in list order. */
  function FilteredCares(all: seq<Care>, filterStage: string, filterDate: string, currentAge: int, completed: set<string>): (r: seq<Care>)
    ensures forall c :: c in r <==> c in all && StageMatches(c, filterStage) && DateMatches(c, filterDate, currentAge, completed)
  {
    Filter(all, Shown(filterStage, filterDate, currentAge, completed))
  }

  /** With both selectors on 'all', every care is listed. */
  lemma FilterAllShowsEverything(all: seq<Care>, currentAge: int, completed: set<string>)
    ensures FilteredCares(all, "all", "all", currentAge, completed) == all
  {
    FilterKeepsAll(all, Shown("all", "all", currentAge, completed));
  }

  /** The 'completed' selector keeps exactly the cares whose id is in the
      completed set, whatever their status. */
  lemma CompletedFilterIsCompletedSet(all: seq<Care>, filterStage: string, currentAge: int, completed: set<string>)
    ensures forall c :: c in FilteredCares(all, filterStage, "completed", currentAge, completed) <==>
      c in all && StageMatches(c, filterStage) && c.id in completed
  {
  }

  /** A selector value that is none of the offered ones hides every care. */
  lemma UnknownDateFilterShowsNothing(all: seq<Care>, filterStage: string, filterDate: string, currentAge: int, completed: set<string>)
    requires filterDate !in {"all", "current", "overdue", "upcoming", "completed"}
    ensures FilteredCares(all, filterStage, filterDate, currentAge, completed) == []
  {
    FilterDropsAll(all, Shown(filterStage, filterDate, currentAge, completed));
  }

  function AgeKey(c: Care): real {
    c.ageInMonths
  }

  /** `sortedCares`: the filtered list, reordered in place by
      `ageInMonths`. */
  method SortedCares(all: seq<Care>, filterStage: string, filterDate: string, currentAge: int, completed: set<string>)
    returns (r: seq<Care>)
    ensures SortedBy(r, AgeKey)
    ensures multiset(r) == multiset(FilteredCares(all, filterStage, filterDate, currentAge, completed))
  {
    r := SortedCopy(FilteredCares(all, filterStage, filterDate, currentAge, completed), AgeKey);
  }

  // ---------------------------------------------------------------------
  // Counters

  function OpenWithStatus(currentAge: int, completed: set<string>, status: Status): Care -> bool {
    (c: Care) => StatusByAge(currentAge, c.ageInMonths) == status && c.id !in completed
  }

  function IsCompleted(completed: set<string>): Care -> bool {
    (c: Care) => c.id in completed
  }

  /** The "Atrasados" counter: overdue cares not marked completed. */
  function OverdueCount(all: seq<Care>, currentAge: int, completed: set<string>): (n: nat)
    ensures n <= |all|
  {
    |Filter(all, OpenWithStatus(currentAge, completed, Overdue))|
  }

  /** The "Atuais" counter: current cares not marked completed. */
  function CurrentCount(all: seq<Care>, currentAge: int, completed: set<string>): (n: nat)
    ensures n <= |all|
  {
    |Filter(all, OpenWithStatus(currentAge, completed, Current))|
  }

  /** Every listed care is counted once: completed, or open and in exactly
      one status bucket. So the overdue and current counters never include a
      completed care. */
  lemma {:induction false} CountersPartition(all: seq<Care>, currentAge: int, completed: set<string>)
    ensures OverdueCount(all, currentAge, completed) + CurrentCount(all, currentAge, completed)
      + |Filter(all, OpenWithStatus(currentAge, completed, Upcoming))|
      + |Filter(all, IsCompleted(completed))| == |all|
  {
    if all != [] {
      CountersPartition(all[1..], currentAge, completed);
    }
  }

  /** Marking one more care completed never raises either counter. */
  lemma CompletingNeverRaises(all: seq<Care>, currentAge: int, completed: set<string>, id: string)
    ensures OverdueCount(all, currentAge, completed + {id}) <= OverdueCount(all, currentAge, completed)
    ensures CurrentCount(all, currentAge, completed + {id}) <= CurrentCount(all, currentAge, completed)
  {
    FilterMonotone(all, OpenWithStatus(currentAge, completed + {id}, Overdue), OpenWithStatus(currentAge, completed, Overdue));
    FilterMonotone(all, OpenWithStatus(currentAge, completed + {id}, Current), OpenWithStatus(currentAge, completed, Current));
  }

  /** Marking every listed care completed sets both counters to zero. */
  lemma CountersIgnoreCompleted(all: seq<Care>, currentAge: int, completed: set<string>)
    requires forall i :: 0 <= i < |all| ==> all[i].id in completed
    ensures OverdueCount(all, currentAge, completed) == 0
    ensures CurrentCount(all, currentAge, completed) == 0
  {
    FilterDropsAll(all, OpenWithStatus(currentAge, completed, Overdue));
    FilterDropsAll(all, OpenWithStatus(currentAge, completed, Current));
  }

  // ---------------------------------------------------------------------
  // Custom cares

  /** `{ ...newCare, id: `custom-${Date.now()}`, category: 'custom' }`,
      with the clock reading passed in. */
  function CustomCare(req: CareRequest, now: int): (c: Care)
    ensures CustomPrefix <= c.id && c.category == "custom"
    ensures c.title == req.title && c.description == req.description
    ensures c.ageInMonths == req.ageInMonths && c.stage == req.stage && c.priority == req.priority
  {
    Care(CustomPrefix + IntToString(now), req.title, req.description, req.ageInMonths, "custom", req.stage, req.priority)
  }

  /** Custom cares added at different clock readings get different ids. */
  lemma CustomIdsDiffer(req1: CareRequest, req2: CareRequest, now1: int, now2: int)
    requires now1 != now2
    ensures CustomCare(req1, now1).id != CustomCare(req2, now2).id
  {
    var id1, id2 := CustomCare(req1, now1).id, CustomCare(req2, now2).id;
    if id1 == id2 {
      assert id1[|CustomPrefix|..] == IntToString(now1);
      assert id2[|CustomPrefix|..] == IntToString(now2);
      IntToStringInjective(now1, now2);
    }
  }

  // ---------------------------------------------------------------------
  // Component state

  class CareScheduleCard {
    /** `pet.birthDate`, as the host's getters report it. */
    const petBirth: Age.CalendarDate
    var completedCares: set<string>
    var customCares: seq<Care>
    var filterStage: string
    var filterDate: string

    constructor (petBirth: Age.CalendarDate)
      ensures this.petBirth == petBirth
      ensures completedCares == {} && customCares == []
      ensures filterStage == "all" && filterDate == "all"
    {
      this.petBirth := petBirth;
      completedCares := {};
      customCares := [];
      filterStage := "all";
      filterDate := "all";
    }

    /** `allCares`: the defaults followed by the custom cares. */
    function AllCares(): (r: seq<Care>)
      reads this
      ensures |r| == |DefaultSchedule| + |customCares|
      ensures r[..|DefaultSchedule|] == DefaultSchedule && r[|DefaultSchedule|..] == customCares
    {
      DefaultSchedule + customCares
    }

    /** `toggleCompletion`: flips the membership of one id in the completed
      set; nothing else changes. */
    method ToggleCompletion(careId: string)
      modifies this
      ensures completedCares == ToggleMember(old(completedCares), careId)
      ensures customCares == old(customCares)
      ensures filterStage == old(filterStage) && filterDate == old(filterDate)
    {
      completedCares := ToggleMember(completedCares, careId);
    }

    /** `addCustomCare`: appends one custom care and leaves the rest of the
      list alone. */
    method AddCustomCare(req: CareRequest, now: int)
      modifies this
      ensures customCares == old(customCares) + [CustomCare(req, now)]
      ensures AllCares() == old(AllCares()) + [CustomCare(req, now)]
      ensures |customCares| == |old(customCares)| + 1
      ensures completedCares == old(completedCares)
      ensures filterStage == old(filterStage) && filterDate == old(filterDate)
    {
      customCares := customCares + [CustomCare(req, now)];
    }

    method SetFilterStage(value: string)
      modifies this
      ensures filterStage == value && filterDate == old(filterDate)
      ensures completedCares == old(completedCares) && customCares == old(customCares)
    {
      filterStage := value;
    }

    method SetFilterDate(value: string)
      modifies this
      ensures filterDate == value && filterStage == old(filterStage)
      ensures completedCares == old(completedCares) && customCares == old(customCares)
    {
      filterDate := value;
    }

    /** The four tiles on `today`: completed ids, open overdue cares, open
        current cares, custom cares. */
    method Tiles(today: Age.CalendarDate) returns (completed: nat, overdue: nat, current: nat, custom: nat)
      ensures completed == |completedCares|
      ensures overdue == OverdueCount(AllCares(), Age.MonthsBetween(today, petBirth), completedCares)
      ensures current == CurrentCount(AllCares(), Age.MonthsBetween(today, petBirth), completedCares)
      ensures overdue + current <= |AllCares()|
      ensures custom == |customCares| == |AllCares()| - |DefaultSchedule|
    {
      var age := Age.MonthsBetween(today, petBirth);
      CountersPartition(AllCares(), age, completedCares);
      completed := |completedCares|;
      overdue := OverdueCount(AllCares(), age, completedCares);
      current := CurrentCount(AllCares(), age, completedCares);
      custom := |customCares|;
    }

    /** The list the card renders on `today`. */
    method Displayed(today: Age.CalendarDate) returns (r: seq<Care>)
      ensures SortedBy(r, AgeKey)
      ensures multiset(r) == multiset(FilteredCares(AllCares(), filterStage, filterDate,
        Age.MonthsBetween(today, petBirth), completedCares))
    {
      r := SortedCares(AllCares(), filterStage, filterDate, Age.MonthsBetween(today, petBirth), completedCares);
    }
  }
}
