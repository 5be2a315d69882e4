/** The life-stage timeline: five stages, each with an age range in months,
    each marked completed, current or upcoming from the pet's age; and the tip
    shown under it. */
module Timeline {
  import Age

  datatype StageStatus = Completed | Current | Upcoming

  /** One stage of the timeline; `lo` and `hi` are its `ageRange`. */
  datatype Stage = Stage(ageLabel: string, lo: int, hi: int, title: string)

  const Stages: seq<Stage> := [
    Stage("1-2 meses", 1, 2, "Primeiros Cuidados"),
    Stage("2-4 meses", 2, 4, "Protocolo de Vacinação"),
    Stage("4-6 meses", 4, 6, "Desenvolvimento e Socialização"),
    Stage("6-12 meses", 6, 12, "Castração e Cuidados"),
    Stage("1+ anos", 12, 999, "Vida Adulta")
  ]

  /** The status each stage is given, in timeline order, exactly as each
      stage's own threshold test decides it. Completed stages come first,
      then the current ones, then the upcoming ones. */
  function StageStatuses(age: int): (r: seq<StageStatus>)
    ensures |r| == |Stages|
    ensures forall i, j :: 0 <= i < j < |r| && r[j] == Completed ==> r[i] == Completed
    ensures forall i, j :: 0 <= i < j < |r| && r[i] == Upcoming ==> r[j] == Upcoming
    ensures r[0] != Upcoming && r[|r| - 1] != Completed
  {
    [ if age >= 2 then Completed else Current,
      if age >= 4 then Completed else if age >= 2 then Current else Upcoming,
      if age >= 6 then Completed else if age >= 4 then Current else Upcoming,
      if age >= 12 then Completed else if age >= 6 then Current else Upcoming,
      if age >= 12 then Current else Upcoming ]
  }

  /** The status a stage would have if it were read off its declared range:
      completed once the age reaches its upper end (the last stage never
      ends), current from its lower end on (the first stage also before it),
      upcoming otherwise. */
  function StatusFromRange(i: nat, age: int): StageStatus
    requires i < |Stages|
  {
    if i < |Stages| - 1 && age >= Stages[i].hi then Completed
    else if i == 0 || age >= Stages[i].lo then Current
    else Upcoming
  }

  /** The hard-coded thresholds agree with each stage's declared range. */
  lemma StatusesFollowRanges(age: int)
    ensures forall i :: 0 <= i < |Stages| ==> StageStatuses(age)[i] == StatusFromRange(i, age)
  {
  }

  /** The stage the pet is in now. */
  function CurrentStageIndex(age: int): (k: nat)
    ensures k < |Stages| && StageStatuses(age)[k] == Current
    ensures forall i :: 0 <= i < |Stages| && i != k ==> StageStatuses(age)[i] != Current
    ensures forall i :: 0 <= i < k ==> StageStatuses(age)[i] == Completed
    ensures forall i :: k < i < |Stages| ==> StageStatuses(age)[i] == Upcoming
  {
    if age < 2 then 0 else if age < 4 then 1 else if age < 6 then 2 else if age < 12 then 3 else 4
  }

  /** Whatever the age, including one below the first range or a birth date
      in the future, exactly one stage is highlighted as current. */
  lemma ExactlyOneCurrent(age: int)
    ensures exists k :: 0 <= k < |Stages| && StageStatuses(age)[k] == Current
    ensures forall i, j ::
      (0 <= i < |Stages| && 0 <= j < |Stages| && StageStatuses(age)[i] == Current && StageStatuses(age)[j] == Current) ==> i == j
  {
    var k := CurrentStageIndex(age);
    assert StageStatuses(age)[k] == Current;
  }

  /** An older pet is never in an earlier stage. */
  lemma StageMonotone(age1: int, age2: int)
    requires age1 <= age2
    ensures CurrentStageIndex(age1) <= CurrentStageIndex(age2)
    ensures forall i :: 0 <= i < |Stages| && StageStatuses(age1)[i] == Completed ==> StageStatuses(age2)[i] == Completed
  {
  }

  // ---------------------------------------------------------------------
  // Tip

  datatype Tip = VaccinationTip | SocialisationTip | AdultTip

  /** `getTipMessage`. */
  function TipFor(age: int): (t: Tip)
    ensures t == VaccinationTip <==> age < 4
    ensures t == SocialisationTip <==> 4 <= age < 12
    ensures t == AdultTip <==> age >= 12
  {
    if age < 4 then VaccinationTip else if age < 12 then SocialisationTip else AdultTip
  }

  /** The text `getTipMessage` returns for each tip. */
  function TipMessage(t: Tip): string {
    match t
    case VaccinationTip => "Esta é uma fase crucial! Mantenha o protocolo de vacinação em dia e evite contato com animais não vacinados."
    case SocialisationTip => "Fase ideal para socialização e adestramento. Aproveite para ensinar comandos básicos!"
    case AdultTip => "Mantenha consultas regulares e não esqueça dos reforços anuais das vacinas."
  }

  /** The three tip texts differ, so the text shown tells the tip apart. */
  lemma TipMessagesDiffer(t1: Tip, t2: Tip)
    ensures TipMessage(t1) == TipMessage(t2) <==> t1 == t2
  {
    if t1 != t2 {
      TipMessageLength(t1);
      TipMessageLength(t2);
    }
  }

  /** The three texts have different lengths: 108, 85 and 75 characters. */
  lemma TipMessageLength(t: Tip)
    ensures |TipMessage(t)| == match t case VaccinationTip => 108 case SocialisationTip => 85 case AdultTip => 75
  {
  }

  /** An older pet never gets an earlier tip. */
  lemma TipMonotone(age1: int, age2: int)
    requires age1 <= age2
    ensures TipFor(age1) == AdultTip ==> TipFor(age2) == AdultTip
    ensures TipFor(age2) == VaccinationTip ==> TipFor(age1) == VaccinationTip
  {
  }

  /** The tip follows the timeline: the vaccination tip during the first two
      stages, the socialisation tip during the next two, the adult tip in the
      last one. */
  lemma TipFollowsStage(age: int)
    ensures TipFor(age) == VaccinationTip <==> CurrentStageIndex(age) <= 1
    ensures TipFor(age) == SocialisationTip <==> 2 <= CurrentStageIndex(age) <= 3
    ensures TipFor(age) == AdultTip <==> CurrentStageIndex(age) == 4
  {
  }
}
