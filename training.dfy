/** The basic training tutorial: four commands, each marked as mastered or
    not, and the progress bar over them. */
module BasicTraining {
  import opened Common

  /** The fields of a command the screen's logic looks at; the description
      and the steps are text only. */
  datatype Command = Command(id: string, name: string, duration: string, difficulty: string)

  const Commands: seq<Command> := [
    Command("sit", "Sentar", "5-10 minutos", "Fácil"),
    Command("stay", "Ficar", "10-15 minutos", "Médio"),
    Command("come", "Vir", "10-15 minutos", "Médio"),
    Command("down", "Deitar", "10-15 minutos", "Médio")
  ]

  const CommandIds: set<string> := {"sit", "stay", "come", "down"}

  /** The ids are those of the four commands, all different. */
  lemma CommandIdsAreCommands()
    ensures |CommandIds| == |Commands| == 4
    ensures forall i :: 0 <= i < |Commands| ==> Commands[i].id in CommandIds
  {
    assert CommandIds == {"sit"} + {"stay"} + {"come"} + {"down"};
    assert "sit" != "stay" && "sit" != "come" && "sit" != "down";
    assert "stay" != "come" && "stay" != "down" && "come" != "down";
  }

  datatype BadgeColour = GreenBadge | YellowBadge | RedBadge | GrayBadge

  /** `getDifficultyColor`. */
  function DifficultyColour(difficulty: string): (c: BadgeColour)
    ensures c == GreenBadge <==> difficulty == "Fácil"
    ensures c == YellowBadge <==> difficulty == "Médio"
    ensures c == RedBadge <==> difficulty == "Difícil"
    ensures c == GrayBadge <==> difficulty !in {"Fácil", "Médio", "Difícil"}
  {
    if difficulty == "Fácil" then GreenBadge
    else if difficulty == "Médio" then YellowBadge
    else if difficulty == "Difícil" then RedBadge
    else GrayBadge
  }

  /** The width of the progress bar, in percent. */
  function ProgressPercent(done: nat, total: nat): (p: real)
    requires total > 0
    ensures done <= total ==> 0.0 <= p <= 100.0
    ensures p == 100.0 <==> done == total
    ensures p == 0.0 <==> done == 0
  {
    (done as real / total as real) * 100.0
  }

  class BasicTrainingTutorial {
    var completedCommands: seq<string>

    /** Every mastered command is one of the four, listed once. */
    ghost predicate Valid()
      reads this
    {
      Checklist(completedCommands, CommandIds)
    }

    constructor ()
      ensures completedCommands == [] && Valid()
    {
      completedCommands := [];
    }

    /** The button of command `i`: `toggleCommandComplete(command.id)`. */
    method ToggleCommandComplete(i: nat)
      requires i < |Commands| && Valid()
      modifies this
      ensures completedCommands == ToggleListed(old(completedCommands), Commands[i].id)
      ensures Valid()
    {
      CommandIdsAreCommands();
      ToggleListedChecklist(completedCommands, CommandIds, Commands[i].id);
      completedCommands := ToggleListed(completedCommands, Commands[i].id);
    }

    /** Whether command `i` is shown as mastered. */
    method IsCompleted(i: nat) returns (b: bool)
      requires i < |Commands|
      ensures b <==> Commands[i].id in completedCommands
    {
      b := Commands[i].id in completedCommands;
    }

    /** "done de total" and the bar: never more mastered than there are
        commands, so the bar never overflows. */
    method Progress() returns (done: nat, total: nat, percent: real)
      requires Valid()
      ensures done == |completedCommands| && total == |Commands|
      ensures done <= total
      ensures 0.0 <= percent <= 100.0
      ensures percent == 100.0 <==> done == total
    {
      CommandIdsAreCommands();
      NoDupBound(completedCommands, CommandIds);
      done, total := |completedCommands|, |Commands|;
      percent := ProgressPercent(done, total);
    }
  }
}

/** The development and training screen: three items to mark as completed,
    each with an action button, and the two sub-screens it can show in its
    own place. */
module DevelopmentTraining {
  import opened Common
  import BasicTraining

  datatype TrainingItem = TrainingItem(id: string, title: string, buttonText: string)

  const TrainingItems: seq<TrainingItem> := [
    TrainingItem("basic-training", "Adestramento básico", "Ver tutorial completo"),
    TrainingItem("weight-control", "Controle de peso", "Registrar novo peso"),
    TrainingItem("vaccine-boosters", "Reforços vacinais anuais", "Ver carteira de vacinação")
  ]

  const ItemIds: set<string> := {"basic-training", "weight-control", "vaccine-boosters"}

  lemma ItemIdsAreItems()
    ensures |ItemIds| == |TrainingItems| == 3
    ensures forall i :: 0 <= i < |TrainingItems| ==> TrainingItems[i].id in ItemIds
  {
    assert ItemIds == {"basic-training"} + {"weight-control"} + {"vaccine-boosters"};
    assert "basic-training"[0] != "weight-control"[0] && "basic-training"[0] != "vaccine-boosters"[0];
    assert "weight-control"[0] != "vaccine-boosters"[0];
  }

  /** `activeScreen`; 'vaccination' is a possible value that nothing sets. */
  datatype ActiveScreen = MainScreen | TrainingScreen | WeightScreen | VaccinationScreen

  /** What the component renders in its place. */
  datatype View = TutorialView | WeightControlView | ItemsView

  /** The rendering switch: the two sub-screens replace the list; any other
      value, 'vaccination' included, shows the list. */
  function ViewFor(screen: ActiveScreen): (v: View)
    ensures v == TutorialView <==> screen == TrainingScreen
    ensures v == WeightControlView <==> screen == WeightScreen
    ensures v == ItemsView <==> screen.MainScreen? || screen.VaccinationScreen?
  {
    if screen == TrainingScreen then TutorialView
    else if screen == WeightScreen then WeightControlView
    else ItemsView
  }

  class DevelopmentTrainingScreen {
    var completedItems: seq<string>
    var activeScreen: ActiveScreen

    ghost predicate Valid()
      reads this
    {
      Checklist(completedItems, ItemIds)
    }

    constructor ()
      ensures completedItems == [] && activeScreen == MainScreen && Valid()
    {
      completedItems := [];
      activeScreen := MainScreen;
    }

    /** A click on item `i`'s card or on its "mark as complete" button (which
        stops the click from reaching the card, so it toggles once). */
    method ToggleItemComplete(i: nat)
      requires i < |TrainingItems| && Valid()
      modifies this
      ensures completedItems == ToggleListed(old(completedItems), TrainingItems[i].id)
      ensures activeScreen == old(activeScreen) && Valid()
    {
      ItemIdsAreItems();
      ToggleListedChecklist(completedItems, ItemIds, TrainingItems[i].id);
      completedItems := ToggleListed(completedItems, TrainingItems[i].id);
    }

    /** Item `i`'s action button. The training and weight items open their
        sub-screen; the vaccine item only calls `onBack` (reported as
        `leave`) and leaves `activeScreen` as it was. No action marks the
        item. */
    method ItemAction(i: nat) returns (leave: bool)
      requires i < |TrainingItems|
      modifies this
      ensures i == 0 ==> activeScreen == TrainingScreen && !leave
      ensures i == 1 ==> activeScreen == WeightScreen && !leave
      ensures i == 2 ==> activeScreen == old(activeScreen) && leave
      ensures completedItems == old(completedItems)
    {
      leave := false;
      if i == 0 {
        activeScreen := TrainingScreen;
      } else if i == 1 {
        activeScreen := WeightScreen;
      } else {
        leave := true;
      }
    }

    /** The `onBack` given to either sub-screen. */
    method SubScreenBack()
      modifies this
      ensures activeScreen == MainScreen && completedItems == old(completedItems)
    {
      activeScreen := MainScreen;
    }

    /** "done de total": at most the three items. */
    method Progress() returns (done: nat, total: nat, percent: real)
      requires Valid()
      ensures done == |completedItems| && total == |TrainingItems|
      ensures done <= total
      ensures 0.0 <= percent <= 100.0
      ensures percent == 100.0 <==> done == total
    {
      ItemIdsAreItems();
      NoDupBound(completedItems, ItemIds);
      done, total := |completedItems|, |TrainingItems|;
      percent := BasicTraining.ProgressPercent(done, total);
    }
  }
}
