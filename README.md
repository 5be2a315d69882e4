# PetCare+ client, modelled in Dafny

PetCare+ is a digital pet health record. Its browser client is written in
React and TypeScript. This project models the client's logic: the state each
screen keeps and the rules that turn that state into what is shown.

- **Sign-in and navigation.** The sign-in form (`Auth`). The home page
  (`HomePage`): which screen it shows, the pet list, the notification bell,
  each pet card's age text and next event. The pet card (`PetCard`) and the
  pet dashboard (`PetDashboard`).
- **Pet registration** (`PetRegistration`): the form's submit gate, the
  month-based age text and the breed list.
- **The care schedule** (`CareSchedule`, `CustomCareDialog`): the default
  schedule, the status of each care for the pet's age, the stage and date
  filters, the sort by age, the completion checklist, custom cares and the
  counters.
- **The timeline** (`Timeline`): stage statuses from the age in months, and
  the tip under them.
- **Notifications** (`Notifications`, `NotificationItem`): mark-read, snooze,
  dismiss, the unread/overdue/upcoming groups and tiles, the day labels and
  the actions offered on each row.
- **Vaccinations** (`Vaccines`): the add dialog, the edit form and the edit
  dialog. One module covers `AddVaccineDialog.tsx`, `VaccinationEditForm.tsx`
  and `EditVaccinationDialog.tsx`.
- **Weight control** (`Weight`): the history, current weight, trend and status,
  and the add dialog. One module covers `WeightControlScreen.tsx` and
  `AddWeightDialog.tsx`.
- **Consultations** (`ConsultationDialog`): the consultation dialog.
- **Training** (`BasicTraining`, `DevelopmentTraining`): the basic training
  checklist and the development-training screen.
- **Tutorials** (`Tutorials`): the tutorial catalogue, its category filter,
  age tabs, icons and favourites.
- **Screen dimensions** (`ScreenDimensions`): the screen-size hook's
  breakpoints.

How the parts are modelled:

- A component's `useState` variables become the fields of a Dafny `class`.
  Each handler becomes a method with a `modifies` clause.
- What a handler computes is a function on values, and the properties are
  lemmas about those functions.
- The host's clock, `Date` parsing, `parseFloat` and `FileReader` are not
  modelled. Their results arrive as parameters, such as a millisecond instant
  `now`, a calendar date, a parsed real or a data URL.
- Ids, labels, form fields, notification and vaccine statuses, care stages
  and priorities, and the care schedule's filter values stay strings, spelled
  as in the source.
- A JavaScript `null` and a key the source leaves out of an object literal
  both become `None`. `Vaccines.NewVaccine` stores manufacturer, batch and
  proofPhoto as `None` where `AddVaccineDialog.tsx` omits the keys. Nothing
  reads the two differently: the edit form's `|| ''` and `|| null`
  (`Vaccines.OrEmpty`, `Vaccines.OptOrNull`) treat an absent key and `null`
  alike.
- String unions that the source only compares against its own literals
  become datatypes: the care status (`CareSchedule.Status`), the timeline
  stage status (`Timeline.StageStatus`), the weight trend and status
  (`Weight.Trend`, `Weight.WeightStatus`), the two `activeScreen` states
  (`PetDashboard.ActiveScreen`, `DevelopmentTraining.ActiveScreen`), and the
  tutorials' category, age group and selected category
  (`Tutorials.TopicCategory`, `Tutorials.AgeGroup`,
  `Tutorials.CategoryFilter`).
- Shared helpers live in `Common`: filtering, toggles on sets and lists, digit
  rendering, and an insertion sort on an array. The sort is used for every
  `.sort` by a numeric key.

## Model

| member | source | states |
|---|---|---|
| Age.MonthsBetween | src/components/CareScheduleCard.tsx:18-22 | the month difference is negative exactly when the birth month is a later calendar month, and zero exactly in the same month (also TimelineCard.tsx:9-13, PetRegistration.tsx:29) |
| Age.MonthsIgnoreDay | src/components/CareScheduleCard.tsx:18-22 | the day of the month never changes the age in months |
| Age.MonthsStep | src/components/CareScheduleCard.tsx:18-22 | each calendar month that passes, across a year end too, adds exactly one month |
| Age.ElapsedDays | src/pages/Index.tsx:50-51 | the result is the least whole number of days that covers the absolute distance between the two instants |
| Age.ElapsedDaysSymmetric | src/components/PetDashboard.tsx:38-39 | a future birth date gives the same day count as a past one at the same distance |
| CareSchedule.DefaultScheduleIds | src/components/CareScheduleCard.tsx:26-117 | the default cares have pairwise distinct ids, none starting with the custom prefix |
| CareSchedule.DefaultScheduleInAgeOrder | src/components/CareScheduleCard.tsx:26-117 | the default schedule is already ordered by age |
| CareSchedule.StatusByAge | src/components/CareScheduleCard.tsx:121-125 | overdue from one month past the care's age, current within that month, upcoming before it; exactly one of the three |
| CareSchedule.StatusMonotone | src/components/CareScheduleCard.tsx:121-125 | as the pet ages a care never goes from overdue back, nor from not-upcoming to upcoming |
| CareSchedule.FilteredCares | src/components/CareScheduleCard.tsx:203-213 | a care is shown iff it is in the list, matches the stage filter and matches the date filter |
| CareSchedule.FilterAllShowsEverything | src/components/CareScheduleCard.tsx:203-213 | with both filters at 'all' the whole list is shown, in order |
| CareSchedule.CompletedFilterIsCompletedSet | src/components/CareScheduleCard.tsx:206-210 | the 'completed' date filter shows exactly the stage-matching cares whose id is in the completed set |
| CareSchedule.UnknownDateFilterShowsNothing | src/components/CareScheduleCard.tsx:206-210 | a date filter value outside the five known ones shows nothing |
| CareSchedule.SortedCares | src/components/CareScheduleCard.tsx:215 | the result is ordered by age and is a permutation of the filtered cares |
| CareSchedule.OverdueCount | src/components/CareScheduleCard.tsx:357-360 | the overdue counter counts open overdue cares and never exceeds the list |
| CareSchedule.CurrentCount | src/components/CareScheduleCard.tsx:372-375 | the current counter counts open current cares and never exceeds the list |
| CareSchedule.CountersPartition | src/components/CareScheduleCard.tsx:357-375 | overdue, current, upcoming and completed cares add up to the whole list |
| CareSchedule.CompletingNeverRaises | src/components/CareScheduleCard.tsx:357-375 | marking one more care completed never raises the overdue or the current counter |
| CareSchedule.CountersIgnoreCompleted | src/components/CareScheduleCard.tsx:357-375 | when every care is completed both counters are zero |
| CareSchedule.CustomCare | src/components/CareScheduleCard.tsx:194-201 | a custom care keeps the request's title, description, age, stage and priority, has category 'custom' and a custom-prefixed id |
| CareSchedule.CustomIdsDiffer | src/components/CareScheduleCard.tsx:194-201 | custom cares added at different instants get different ids |
| CareSchedule.CareScheduleCard.constructor | src/components/CareScheduleCard.tsx:12-15 | nothing completed, no custom cares, both filters 'all' |
| CareSchedule.CareScheduleCard.AllCares | src/components/CareScheduleCard.tsx:119 | the default schedule followed by the custom cares |
| CareSchedule.CareScheduleCard.ToggleCompletion | src/components/CareScheduleCard.tsx:176-192 | flips membership of the one id in the completed set; nothing else changes |
| CareSchedule.CareScheduleCard.AddCustomCare | src/components/CareScheduleCard.tsx:194-201 | appends exactly one custom care at the end of all cares; the rest is unchanged |
| CareSchedule.CareScheduleCard.SetFilterStage | src/components/CareScheduleCard.tsx:204 | sets the stage filter only |
| CareSchedule.CareScheduleCard.SetFilterDate | src/components/CareScheduleCard.tsx:206-210 | sets the date filter only |
| CareSchedule.CareScheduleCard.Tiles | src/components/CareScheduleCard.tsx:346-386 | the four tiles: the completed-set size, the two counters at today's age (together at most the list), and the number of custom cares |
| CareSchedule.CareScheduleCard.Displayed | src/components/CareScheduleCard.tsx:203-215 | the displayed list is sorted by age and is a permutation of all cares filtered at today's age |
| CustomCareDialog.CarePayload | src/components/AddCustomCareDialog.tsx:31-43 | refused iff title, age or stage is empty; otherwise every field is passed on and the age is the parsed number |
| CustomCareDialog.DefaultsNeedOnlyRequiredFields | src/components/AddCustomCareDialog.tsx:18-38 | the initial form is refused, and filling in title, age and stage is enough |
| CustomCareDialog.PayloadBecomesCustomCare | src/components/AddCustomCareDialog.tsx:40-45 | an accepted payload becomes a custom care in the 'custom' category with the typed fields |
| CustomCareDialog.AddCustomCareDialog.constructor | src/components/AddCustomCareDialog.tsx:17-25 | closed, with the default form (priority 'medium', category 'custom') |
| CustomCareDialog.AddCustomCareDialog.SetOpen | src/components/AddCustomCareDialog.tsx:17 | sets `open` only |
| CustomCareDialog.AddCustomCareDialog.SetField | src/components/AddCustomCareDialog.tsx:81-135 | replaces one form field only |
| CustomCareDialog.AddCustomCareDialog.Submit | src/components/AddCustomCareDialog.tsx:28-60 | a refused form stays as it is; an accepted one is handed over, then the form resets and the dialog closes |
| ConsultationDialog.ConsultationPayload | src/components/AddConsultationDialog.tsx:35-44 | refused iff date or reason is empty; otherwise the four fields pass unchanged |
| ConsultationDialog.OptionalFieldsIgnored | src/components/AddConsultationDialog.tsx:35-37 | observations and vet never decide acceptance |
| ConsultationDialog.DateAndReasonSuffice | src/components/AddConsultationDialog.tsx:35-44 | an empty form with only date and reason filled in is accepted |
| ConsultationDialog.AddConsultationDialog.constructor | src/components/AddConsultationDialog.tsx:20-26 | closed, all fields empty |
| ConsultationDialog.AddConsultationDialog.SetOpen | src/components/AddConsultationDialog.tsx:20 | sets `open` only |
| ConsultationDialog.AddConsultationDialog.InputChange | src/components/AddConsultationDialog.tsx:28-30 | replaces one field only |
| ConsultationDialog.AddConsultationDialog.Submit | src/components/AddConsultationDialog.tsx:32-55 | a refused form changes nothing; an accepted one is handed over, then the form resets and the dialog closes |
| Notifications.MarkedRead | src/components/NotificationsScreen.tsx:80-87 | same length; records with the id become read with every other field kept; all others unchanged |
| Notifications.MarkedReadIdempotent | src/components/NotificationsScreen.tsx:80-87 | marking twice is marking once |
| Notifications.Snoozed | src/components/NotificationsScreen.tsx:95-107 | same length and ids; the matching records get the new due date, days left increased by the snooze, and become unread; the others are unchanged |
| Notifications.SnoozeAdds | src/components/NotificationsScreen.tsx:95-107 | two snoozes of the same record add up to one snooze by the total |
| Notifications.Dismissed | src/components/NotificationsScreen.tsx:115-116 | a record remains iff it was there and has a different id |
| Notifications.DismissedExactly | src/components/NotificationsScreen.tsx:115-116 | exactly the records with the id are removed; an absent id changes nothing |
| Notifications.DismissedKeepsOrder | src/components/NotificationsScreen.tsx:115-116 | dismissal works piecewise over a concatenation, so order is kept |
| Notifications.Unread | src/components/NotificationsScreen.tsx:124 | the unread group is exactly the records not read |
| Notifications.Group | src/components/NotificationsScreen.tsx:125-126 | a status group holds exactly the records with that status |
| Notifications.Overdue | src/components/NotificationsScreen.tsx:125 | the overdue group is exactly the records with status 'overdue' |
| Notifications.Upcoming | src/components/NotificationsScreen.tsx:126 | the upcoming group is exactly the records with status 'upcoming' |
| Notifications.UnreadCountIsCount | src/components/NotificationsScreen.tsx:164-166 | the unread tile equals the number of unread records |
| Notifications.GroupsDisjoint | src/components/NotificationsScreen.tsx:125-126 | no record is both overdue and upcoming, so the two tiles never exceed the list |
| Notifications.MarkedReadKeepsGroups | src/components/NotificationsScreen.tsx:80-87 | marking read commutes with the status grouping |
| Notifications.SnoozedKeepsGroups | src/components/NotificationsScreen.tsx:95-107 | snoozing does not move a record between the overdue and upcoming groups |
| Notifications.MarkedReadLeavesUnread | src/components/NotificationsScreen.tsx:80-87 | after marking, the unread group is the old one without that id |
| Notifications.DismissedKeepsGroups | src/components/NotificationsScreen.tsx:115-116 | dismissal commutes with the status grouping |
| Notifications.InitialGroups | src/components/NotificationsScreen.tsx:17-78 | the starting list has four unread, one overdue and four upcoming reminders |
| Notifications.UpcomingInOrder | src/components/NotificationsScreen.tsx:240-241 | the upcoming list is sorted by days left and is a permutation of the upcoming group |
| Notifications.NotificationList.constructor | src/components/NotificationsScreen.tsx:17-78 | starts with the five built-in reminders |
| Notifications.NotificationList.MarkAsRead | src/components/NotificationsScreen.tsx:80-87 | the list becomes its marked-read form |
| Notifications.NotificationList.Snooze | src/components/NotificationsScreen.tsx:95-107 | the list becomes its snoozed form |
| Notifications.NotificationList.Dismiss | src/components/NotificationsScreen.tsx:115-116 | the list becomes its dismissed form |
| Notifications.NotificationList.Tiles | src/components/NotificationsScreen.tsx:164-200 | the tile counts are the group sizes, and overdue plus upcoming never exceeds the list |
| Notifications.NotificationList.UpcomingShown | src/components/NotificationsScreen.tsx:240-241 | the shown upcoming list is ordered by days left and a permutation of the group |
| NotificationItem.FormatDaysLeft | src/components/NotificationItem.tsx:36-42 | 'Hoje', 'Amanhã', 'Ontem' exactly for 0, 1, -1; 'Em N dias' above one; 'N dias atrás' below minus one |
| NotificationItem.FormatDaysLeftInjective | src/components/NotificationItem.tsx:36-42 | different day counts never share a label |
| NotificationItem.PriorityLabel | src/components/NotificationItem.tsx:80 | 'Alta' iff high, 'Média' iff medium, 'Baixa' for anything else |
| NotificationItem.ButtonActions | src/components/NotificationItem.tsx:100-104 | the check button appears iff the reminder is unread and marks only that reminder |
| NotificationItem.MenuActions | src/components/NotificationItem.tsx:118-137 | mark-read iff unread; snooze by 1, 3 and 7 days and dismiss always; every action targets this reminder |
| NotificationItem.ActionsTouchOnlyTheirRow | src/components/NotificationItem.tsx:100-137 | no action a row offers changes, or removes, a reminder with a different id |
| Vaccines.OrEmpty | src/components/VaccinationEditForm.tsx:21-24 | an absent text field starts as the empty text, a present one as itself |
| Vaccines.OrNull | src/components/AddVaccineDialog.tsx:44 | an empty field is stored as null, any other is kept |
| Vaccines.OptOrNull | src/components/VaccinationEditForm.tsx:25 | an absent or empty photo becomes null, any other is kept |
| Vaccines.AppliedDateFor | src/components/AddVaccineDialog.tsx:43 | an applied date exists iff the status is 'applied'; then it is the typed date, or the expected date when none was typed |
| Vaccines.NextDueFor | src/components/AddVaccineDialog.tsx:44 | a pending vaccine is next due on its expected date; otherwise the typed next-due date or null |
| Vaccines.NewVaccine | src/components/AddVaccineDialog.tsx:26-45 | refused iff name or expected date is empty; otherwise the record carries the clock id, the typed fields and the status rules |
| Vaccines.NewVaccineNormalised | src/components/AddVaccineDialog.tsx:38-45 | a new record already obeys the status rules |
| Vaccines.AddVaccineDialog.constructor | src/components/AddVaccineDialog.tsx:16-23 | closed, empty form with status 'pending' |
| Vaccines.AddVaccineDialog.SetOpen | src/components/AddVaccineDialog.tsx:16 | sets `open` only |
| Vaccines.AddVaccineDialog.SetField | src/components/AddVaccineDialog.tsx:81-131 | replaces one field only |
| Vaccines.AddVaccineDialog.Submit | src/components/AddVaccineDialog.tsx:26-61 | refused: nothing changes; accepted: the new record is handed over, the form resets and the dialog closes |
| Vaccines.InitialEditForm | src/components/VaccinationEditForm.tsx:17-26 | the form starts from the record, with absent texts as empty and an absent or empty photo as null |
| Vaccines.UpdatedVaccine | src/components/VaccinationEditForm.tsx:29-51 | refused iff name or expected date is empty; otherwise id and all other properties are kept and the edited fields follow the status rules |
| Vaccines.EditUnchangedIsIdentity | src/components/VaccinationEditForm.tsx:17-51 | submitting an untouched form on a record that obeys the status rules gives back that same record |
| Vaccines.EditTwiceIsEditOnce | src/components/VaccinationEditForm.tsx:17-51 | reopening an edited record and submitting unchanged gives the same record |
| Vaccines.VaccinationEditForm.constructor | src/components/VaccinationEditForm.tsx:17-26 | the form is the record's initial form |
| Vaccines.VaccinationEditForm.SetField | src/components/VaccinationEditForm.tsx:74-143 | replaces one field only |
| Vaccines.VaccinationEditForm.SetProofPhoto | src/components/VaccinationEditForm.tsx:56-65 | the photo becomes the data URL that was read; the other fields are unchanged |
| Vaccines.VaccinationEditForm.Submit | src/components/VaccinationEditForm.tsx:29-54 | refused iff name or expected date is empty; an accepted one keeps the record's id and other properties |
| Vaccines.ReplacedById | src/components/EditVaccinationDialog.tsx:25-27 | same length; every record with the id is replaced, every other one kept in place |
| Vaccines.ReplacedKeepsIds | src/components/EditVaccinationDialog.tsx:25-27 | replacing with a record of the same id keeps the sequence of ids |
| Vaccines.ReplacedBySelf | src/components/EditVaccinationDialog.tsx:25-27 | with distinct ids, replacing a record by itself changes nothing |
| Vaccines.RemovedById | src/components/EditVaccinationDialog.tsx:39 | a record remains iff it was there and has a different id |
| Vaccines.RemovedExactly | src/components/EditVaccinationDialog.tsx:39 | exactly the records with the id go, order is kept, an absent id changes nothing |
| Vaccines.EditVaccinationDialog.constructor | src/components/EditVaccinationDialog.tsx:16-17 | the given list, nothing being edited |
| Vaccines.EditVaccinationDialog.Edit | src/components/EditVaccinationDialog.tsx:20-22 | the record becomes the one being edited |
| Vaccines.EditVaccinationDialog.Update | src/components/EditVaccinationDialog.tsx:24-36 | the edited record is replaced by id and editing ends |
| Vaccines.EditVaccinationDialog.Delete | src/components/EditVaccinationDialog.tsx:38-46 | the records with the id are removed |
| Vaccines.EditVaccinationDialog.Cancel | src/components/EditVaccinationDialog.tsx:48-50 | editing ends, the list is unchanged |
| Weight.NewRecord | src/components/WeightControlScreen.tsx:38-47 | the record carries the clock id, the parsed weight and the typed date and notes |
| Weight.CurrentWeight | src/components/WeightControlScreen.tsx:58-60 | the first record's weight, 0 for an empty history |
| Weight.WeightTrend | src/components/WeightControlScreen.tsx:62-71 | rising iff the newest exceeds the previous by more than 0.3, falling iff by less than -0.3, stable otherwise or with fewer than two records |
| Weight.TrendReverses | src/components/WeightControlScreen.tsx:62-71 | swapping the two newest weighings swaps rising and falling and keeps stable |
| Weight.StatusOf | src/components/WeightControlScreen.tsx:49-56 | underweight below 7.0, overweight above 9.5, ideal in between, both ends included (also lines 73-80) |
| Weight.StatusMonotone | src/components/WeightControlScreen.tsx:73-80 | a heavier pet is never classified lighter |
| Weight.EmptyHistoryIsUnderweight | src/components/WeightControlScreen.tsx:58-80 | with no weighings the status is underweight and the trend stable |
| Weight.InitialReadings | src/components/WeightControlScreen.tsx:15-34 | the starting history reads 8.5 kg, ideal, rising |
| Weight.WeightControlScreen.constructor | src/components/WeightControlScreen.tsx:15-36 | the three built-in weighings, dialog hidden |
| Weight.WeightControlScreen.SetShowAddWeight | src/components/WeightControlScreen.tsx:36 | sets the dialog flag only |
| Weight.WeightControlScreen.AddWeight | src/components/WeightControlScreen.tsx:38-47 | the new weighing goes in front of the unchanged history, becomes the current weight and drives the trend; the dialog closes |
| Weight.WeightControlScreen.Summary | src/components/WeightControlScreen.tsx:113-115 | current weight, trend and status of the history |
| Weight.SubmitWeight | src/components/AddWeightDialog.tsx:21-44 | the weight alert iff empty or not positive; else the date alert iff the date is empty; else the three texts unchanged |
| Weight.AcceptedWeightIsPositive | src/components/AddWeightDialog.tsx:24-27 | an accepted weighing, once added, is a positive current weight |
| Weight.AddWeightDialog.constructor | src/components/AddWeightDialog.tsx:17-19 | empty weight and notes, today's date |
| Weight.AddWeightDialog.SetWeight | src/components/AddWeightDialog.tsx:65 | sets the weight text only |
| Weight.AddWeightDialog.SetDate | src/components/AddWeightDialog.tsx:78 | sets the date only |
| Weight.AddWeightDialog.SetNotes | src/components/AddWeightDialog.tsx:89 | sets the notes only |
| Weight.AddWeightDialog.Submit | src/components/AddWeightDialog.tsx:21-44 | a refusal changes nothing; an acceptance resets to empty weight, today's date, empty notes |
| Timeline.StageStatuses | src/components/TimelineCard.tsx:17-83 | five statuses: completed stages first, then current, then upcoming; the first is never upcoming and the last never completed |
| Timeline.StatusesFollowRanges | src/components/TimelineCard.tsx:17-83 | each hard-coded threshold test agrees with that stage's declared age range |
| Timeline.CurrentStageIndex | src/components/TimelineCard.tsx:17-83 | the index of the only current stage, with completed stages before it and upcoming stages after |
| Timeline.ExactlyOneCurrent | src/components/TimelineCard.tsx:17-83 | for every age, even a negative one, exactly one stage is current |
| Timeline.StageMonotone | src/components/TimelineCard.tsx:17-83 | an older pet is never in an earlier stage, and a completed stage stays completed |
| Timeline.TipFor | src/components/TimelineTip.tsx:10-18 | vaccination tip below 4 months, socialisation tip from 4 up to 12, adult tip from 12 |
| Timeline.TipMonotone | src/components/TimelineTip.tsx:10-18 | an older pet never gets an earlier tip |
| Timeline.TipFollowsStage | src/components/TimelineTip.tsx:10-18 | the vaccination tip covers the first two stages, the socialisation tip the next two, the adult tip the last |
| Timeline.TipMessagesDiffer | src/components/TimelineTip.tsx:10-18 | the three tip texts are pairwise different, so the text shown identifies the tip |
| Timeline.TipMessageLength | src/components/TimelineTip.tsx:11-16 | the vaccination, socialisation and adult texts are 108, 85 and 75 characters long |
| BasicTraining.CommandIdsAreCommands | src/components/BasicTrainingTutorial.tsx:15-71 | four commands with four distinct ids |
| BasicTraining.DifficultyColour | src/components/BasicTrainingTutorial.tsx:81-88 | green iff 'Fácil', yellow iff 'Médio', red iff 'Difícil', gray otherwise |
| BasicTraining.ProgressPercent | src/components/BasicTrainingTutorial.tsx:126-131 | within 0..100 when done is at most total; 100 iff all done; 0 iff none done |
| BasicTraining.BasicTrainingTutorial.constructor | src/components/BasicTrainingTutorial.tsx:13 | no command mastered |
| BasicTraining.BasicTrainingTutorial.ToggleCommandComplete | src/components/BasicTrainingTutorial.tsx:73-79 | toggles the command's id in the list; the list stays duplicate-free and within the four commands |
| BasicTraining.BasicTrainingTutorial.IsCompleted | src/components/BasicTrainingTutorial.tsx:140 | true iff the command's id is listed |
| BasicTraining.BasicTrainingTutorial.Progress | src/components/BasicTrainingTutorial.tsx:126-131 | the mastered count never exceeds the total, so the bar stays within 0..100 |
| DevelopmentTraining.ItemIdsAreItems | src/components/DevelopmentTrainingScreen.tsx:33-64 | three items with three distinct ids |
| DevelopmentTraining.ViewFor | src/components/DevelopmentTrainingScreen.tsx:67-73 | the tutorial for the training screen, the weight screen for the weight one, the item list otherwise |
| DevelopmentTraining.DevelopmentTrainingScreen.constructor | src/components/DevelopmentTrainingScreen.tsx:16-17 | nothing completed, main screen |
| DevelopmentTraining.DevelopmentTrainingScreen.ToggleItemComplete | src/components/DevelopmentTrainingScreen.tsx:19-25 | toggles the item's id; the list stays duplicate-free and within the three items |
| DevelopmentTraining.DevelopmentTrainingScreen.ItemAction | src/components/DevelopmentTrainingScreen.tsx:27-64 | the first item opens training, the second the weight screen, the third leaves through `onBack` |
| DevelopmentTraining.DevelopmentTrainingScreen.SubScreenBack | src/components/DevelopmentTrainingScreen.tsx:67-73 | back to the main screen, completions kept |
| DevelopmentTraining.DevelopmentTrainingScreen.Progress | src/components/DevelopmentTrainingScreen.tsx:206-211 | the completed count never exceeds three and the bar stays within 0..100 |
| Tutorials.FilteredTutorials | src/components/TutorialsScreen.tsx:451-453 | a tutorial is shown iff it is in the list and 'all' or its category is selected |
| Tutorials.CategoryFilterKeepsOrder | src/components/TutorialsScreen.tsx:451-453 | 'all' shows the list unchanged; filtering keeps order |
| Tutorials.AgeTab | src/components/TutorialsScreen.tsx:586-587 | a tab lists exactly the filtered tutorials of its age group |
| Tutorials.AgeTabIsOneFilter | src/components/TutorialsScreen.tsx:586-587 | a tab is one filter of the whole list by category and age group, in list order |
| Tutorials.TabsPartition | src/components/TutorialsScreen.tsx:586-709 | the three age groups split any list exactly |
| Tutorials.TabsCoverFiltered | src/components/TutorialsScreen.tsx:586-709 | under any category the three tabs together list every filtered tutorial once |
| Tutorials.BlockTab | src/components/TutorialsScreen.tsx:586-709 | a tab keeps a block of one age group whole or drops it |
| Tutorials.CatalogueBlocks | src/components/TutorialsScreen.tsx:43-449 | the catalogue is seven puppy, then six adult, then three senior tutorials |
| Tutorials.TabOfBlocks | src/components/TutorialsScreen.tsx:586-709 | lists made of puppy, adult and senior blocks split into the tabs block by block |
| Tutorials.CatalogueIdsDistinct | src/components/TutorialsScreen.tsx:43-449 | the sixteen tutorials have distinct ids |
| Tutorials.CategoryIdsDistinct | src/components/TutorialsScreen.tsx:34-41 | the category buttons have distinct ids |
| Tutorials.FindCategory | src/components/TutorialsScreen.tsx:466 | not found iff no entry has the id; a found entry has the id |
| Tutorials.CategoryIcon | src/components/TutorialsScreen.tsx:465-468 | the matching entry's icon, the heart for an unknown id |
| Tutorials.CategoryIndex | src/components/TutorialsScreen.tsx:34-41 | every topic has its own button after 'all' |
| Tutorials.TutorialIcon | src/components/TutorialsScreen.tsx:465-468 | a tutorial's icon is its category button's icon, never the fallback heart |
| Tutorials.TutorialIconsDistinct | src/components/TutorialsScreen.tsx:465-468 | different topics get different icons |
| Tutorials.TutorialsScreen.constructor | src/components/TutorialsScreen.tsx:30-32 | category 'all', no tutorial open, no favourites |
| Tutorials.TutorialsScreen.SelectCategory | src/components/TutorialsScreen.tsx:574 | sets the category only |
| Tutorials.TutorialsScreen.OpenTutorial | src/components/TutorialsScreen.tsx:633 | opens the tutorial only |
| Tutorials.TutorialsScreen.CloseTutorial | src/components/TutorialsScreen.tsx:477 | closes the tutorial only |
| Tutorials.TutorialsScreen.ToggleFavorite | src/components/TutorialsScreen.tsx:455-463 | flips the id's membership in the favourites; nothing else changes |
| Tutorials.TutorialsScreen.Tab | src/components/TutorialsScreen.tsx:586-587 | the tab's contents are the catalogue filtered by the selected category and the age group |
| Common.ToggleMember | src/components/TutorialsScreen.tsx:455-463 | the element's membership flips and every other element's is kept |
| Common.ToggleMemberTwice | src/components/TutorialsScreen.tsx:455-463 | toggling twice restores the set |
| Common.ToggleListed | src/components/BasicTrainingTutorial.tsx:73-79 | the element's presence flips and every other element's is kept |
| Common.ToggleListedAbsent | src/components/BasicTrainingTutorial.tsx:73-79 | a missing id is appended at the end |
| Common.ToggleListedPresent | src/components/BasicTrainingTutorial.tsx:74-77 | toggling a listed id removes every occurrence and keeps the other ids in their order, splitting like the input (also DevelopmentTrainingScreen.tsx:19-25) |
| Common.ToggleListedTwice | src/components/BasicTrainingTutorial.tsx:73-79 | appending then removing an id restores the list |
| Common.ToggleListedChecklist | src/components/DevelopmentTrainingScreen.tsx:19-25 | toggling a known id keeps the list duplicate-free and within the known ids, so no longer than them |
| Common.SortByKey | src/components/CareScheduleCard.tsx:215 | sorts the array in place by the key; the result is a permutation |
| Common.SortedCopy | src/components/NotificationsScreen.tsx:240-241 | a sorted permutation of the input |
| Auth.Submit | src/components/Auth.tsx:32-51 | mismatch iff signing up with different passwords; otherwise success with the login or sign-up message |
| Auth.LoginIgnoresConfirmation | src/components/Auth.tsx:36-43 | in login mode the confirmation never matters |
| Auth.MessagesTellModesApart | src/components/Auth.tsx:46-50 | the two success messages differ |
| Auth.SocialLogin | src/components/Auth.tsx:71-81 | Google signs in; any other provider gets a not-implemented message naming it |
| Auth.NotImplementedNamesProvider | src/components/Auth.tsx:71-81 | different providers get different messages |
| Auth.AuthScreen.constructor | src/components/Auth.tsx:17-22 | login mode, all fields empty, passwords hidden |
| Auth.AuthScreen.ToggleMode | src/components/Auth.tsx:250 | flips the mode and keeps every typed field |
| Auth.AuthScreen.SetEmail | src/components/Auth.tsx:118 | sets the email only |
| Auth.AuthScreen.SetPassword | src/components/Auth.tsx:135 | sets the password only |
| Auth.AuthScreen.SetConfirmPassword | src/components/Auth.tsx:160 | sets the confirmation only |
| Auth.AuthScreen.ToggleShowPassword | src/components/Auth.tsx:141 | flips the password visibility only |
| Auth.AuthScreen.ToggleShowConfirmPassword | src/components/Auth.tsx:166 | flips the confirmation visibility only |
| Auth.AuthScreen.SubmitForm | src/components/Auth.tsx:32-51 | the outcome of the form's fields; authenticated iff in login mode or the passwords match |
| ScreenDimensions.Measure | src/hooks/useScreenDimensions.tsx:24-28 | small below 640, medium 640 up to 1023, large from 1024; portrait iff taller than wide, landscape iff wider than tall |
| ScreenDimensions.ExactlyOneBreakpoint | src/hooks/useScreenDimensions.tsx:24-26 | every width falls in exactly one size class |
| ScreenDimensions.Orientation | src/hooks/useScreenDimensions.tsx:27-28 | never portrait and landscape at once; a square screen is neither |
| ScreenDimensions.RotationSwapsOrientation | src/hooks/useScreenDimensions.tsx:27-28 | swapping width and height swaps portrait and landscape |
| ScreenDimensions.BreakpointMonotone | src/hooks/useScreenDimensions.tsx:24-26 | a wider screen is never in a smaller size class |
| ScreenDimensions.ScreenDimensionsHook.constructor | src/hooks/useScreenDimensions.tsx:17-32 | the initial state is the measurement of the window |
| ScreenDimensions.ScreenDimensionsHook.Update | src/hooks/useScreenDimensions.tsx:35-49 | a resize or rotation re-measures with the same rules as the initial state |
| PetRegistration.AgeText | src/components/PetRegistration.tsx:25-37 | empty without a birth date; the signed months and ' meses' under twelve; whole years, plural only from two, from twelve on |
| PetRegistration.MonthTextsDiffer | src/components/PetRegistration.tsx:31-32 | different month counts give different texts |
| PetRegistration.YearTextsAgree | src/components/PetRegistration.tsx:33-35 | two ages of a year or more read the same iff they are in the same whole year |
| PetRegistration.DisabledIffRefused | src/components/PetRegistration.tsx:209 | the submit button is disabled exactly when submitting would register nothing |
| PetRegistration.Registration | src/components/PetRegistration.tsx:39-45 | a pet is registered iff name, species and birth date are filled in; it carries the form and a non-empty age text |
| PetRegistration.BreedOptions | src/components/PetRegistration.tsx:140 | the eleven dog breeds for 'dog', the nine cat breeds otherwise, both with the mixed-breed option |
| PetRegistration.BreedSelectFollowsSpecies | src/components/PetRegistration.tsx:134 | the breed select is enabled exactly when a species is set: editing the species decides it, other fields leave it, and a submittable form has it enabled |
| PetRegistration.PetRegistrationScreen.constructor | src/components/PetRegistration.tsx:11-19 | all seven fields empty |
| PetRegistration.PetRegistrationScreen.InputChange | src/components/PetRegistration.tsx:21-23 | replaces one field only |
| PetRegistration.PetRegistrationScreen.Submit | src/components/PetRegistration.tsx:39-45 | a registration iff the button is enabled, carrying the form and its age text |
| HomePage.PetWithProgress | src/pages/Index.tsx:24-36 | the registered pet with the clock id, 60% progress, the rabies-vaccine event and two notifications |
| HomePage.SplitDays | src/pages/Index.tsx:51-53 | 30-day months and 12-month years, with the remaining months below twelve |
| HomePage.DayAgeText | src/pages/Index.tsx:45-63 | 'Idade não informada' without a birth date; years with the remaining months, or years alone, or months, or days, with the plurals |
| HomePage.DayAgeSymmetric | src/pages/Index.tsx:50 | a future birth date reads like a past one at the same distance |
| HomePage.SameInstantIsZeroDays | src/pages/Index.tsx:60-61 | a pet born this instant reads '0 dia' |
| HomePage.DaysOnlyUnderAMonth | src/pages/Index.tsx:55-62 | the text counts days iff fewer than 30 days have passed |
| HomePage.EventColor | src/pages/Index.tsx:76-80 | red up to 7 days, orange from 8 to 14, green after |
| HomePage.NextEventText | src/pages/Index.tsx:261-263 | 'Hoje!' iff due today; otherwise 'Em N dia', plural above one |
| HomePage.UrgentIffRed | src/pages/Index.tsx:277 | the home page tags a pet urgent exactly when its event is red |
| HomePage.BellShownIffTotalPositive | src/pages/Index.tsx:118-120 | with no negative counts the bell badge shows iff its total is positive |
| HomePage.BellTotalAppend | src/pages/Index.tsx:120 | appending a pet adds its notifications to the total |
| HomePage.ScreenFor | src/pages/Index.tsx:83-98 | the sign-in screen until authenticated, then the selected pet's dashboard, then registration, then the list |
| HomePage.Index.constructor | src/pages/Index.tsx:15-18 | not authenticated, no pets, no registration, nothing selected |
| HomePage.Index.AuthSuccess | src/pages/Index.tsx:20-22 | only authentication changes |
| HomePage.Index.SetShowRegistration | src/pages/Index.tsx:125 | only the registration flag changes |
| HomePage.Index.PetRegistered | src/pages/Index.tsx:24-39 | one pet appended after the others, the bell total up by two, back to the list |
| HomePage.Index.SelectPet | src/pages/Index.tsx:41-43 | only the selection changes |
| HomePage.Index.BackToList | src/pages/Index.tsx:88 | the selection is cleared, nothing else changes |
| PetCard.CardEventColor | src/components/PetCard.tsx:44-48 | red up to 7 days, orange from 8 to 14, green after |
| PetCard.SameColoursAsHomePage | src/components/PetCard.tsx:44-48 | the card colours every event as the home page does |
| PetCard.BadgeAsOnHomePage | src/components/PetCard.tsx:55 | the card badge shows for the same pets as the home page's |
| PetCard.CardEventText | src/components/PetCard.tsx:95-98 | the home page's next-event text |
| PetCard.UrgentDiffersOnTheDay | src/components/PetCard.tsx:111 | the card tags urgent as the home page does, except for an event due today, which it does not tag |
| PetCard.ProgressShown | src/components/PetCard.tsx:82-84 | the progress when present, 0 otherwise |
| PetDashboard.DashboardAgeText | src/components/PetDashboard.tsx:33-48 | '0 meses' without a birth date; whole years alone from a year on; otherwise 'M mes' with 'es' unless exactly one |
| PetDashboard.AgreesWithHomePageOnWholeYears | src/components/PetDashboard.tsx:43-44 | for whole years the dashboard and the home page show the same text |
| PetDashboard.UnderAMonthIsZeroMonths | src/components/PetDashboard.tsx:40-46 | under 30 days the dashboard reads '0 meses' |
| PetDashboard.DashboardAgeSymmetric | src/components/PetDashboard.tsx:38 | a future birth date reads like a past one at the same distance |
| PetDashboard.PetDashboardScreen.constructor | src/components/PetDashboard.tsx:31 | starts on the dashboard |
| PetDashboard.PetDashboardScreen.OpenDevelopment | src/components/PetDashboard.tsx:77 | switches to the development screen |
| PetDashboard.PetDashboardScreen.OpenTutorials | src/components/PetDashboard.tsx:85 | switches to the tutorials screen |
| PetDashboard.PetDashboardScreen.BackToDashboard | src/components/PetDashboard.tsx:54-59 | a sub-screen's back button returns to the dashboard |
| PetDashboard.PetDashboardScreen.DeletePet | src/components/PetDashboard.tsx:50-52 | the id handed to `onDelete` is the pet's |

## Left out

- Rendering: markup, styling, icons as images, and the tutorials' descriptive
  text, steps and thumbnails. The order and the keys of rendered lists are
  kept; only the logic behind them is modelled.
- The clock, `Date` parsing and time zones: the current instant, today's
  calendar date and the formatted dates the handlers write come in as
  parameters. A snooze's new due date is one of them.
- `parseFloat`, `NaN` and IEEE doubles: numbers are exact reals and integers,
  and the parsed value arrives with the typed text.
- `FileReader`: the data URL of a chosen photo arrives as a string.
- `Date.now()` ids: the clock reading is a parameter, so two additions at the
  same millisecond are not excluded.
- Toasts, alerts and console logs: the model returns which outcome occurred,
  not the message shown.
- HTML `required` attributes and the browser's form validation, which can stop
  a submission before the handler runs: only the handlers' own checks are
  modelled.
- The Google sign-in flow (src/components/Auth.tsx:53-69): asynchronous and
  external. `Auth.SocialLogin` only says that Google takes that path.
- The window listeners and the safe-area text of the screen hook: the
  listeners become a call to `Update`, and the safe-area insets arrive as
  integers (their `parseInt` is not modelled).
- The EditVaccinationDialog's own `open` state and the list it receives: the
  list lives in the parent and is a field of the dialog class here.
- The CareScheduleCard's colour and label helpers (lines 127-172) and the
  priority badges: display only.
- The pet-name initial shown on cards: display only.
- The card's `onDelete` wiring to the home page: `Index.tsx` (line 88) renders
  the dashboard without an `onDelete` prop. As the source is wired, confirming
  a delete (PetDashboard.tsx:111, which calls `handleDeletePet` at line 51)
  calls `undefined` and throws a TypeError. The model does not capture that
  failure: `PetDashboard.PetDashboardScreen.DeletePet` returns the id that a
  supplied `onDelete` would receive.
- Common.SortByKey, Common.SortedCopy, CareSchedule.SortedCares,
  CareSchedule.CareScheduleCard.Displayed, Notifications.UpcomingInOrder and
  Notifications.NotificationList.UpcomingShown: they state order and
  permutation but not stability. The source's stable `Array.prototype.sort`
  keeps the default schedule's ties in table order (at 6 and 12 months), and
  the model leaves the order among equal keys open.
- Tutorials.TutorialsScreen.SelectCategory: the selected category is 'all'
  or one of the five topic ids, not any string. The category buttons are
  the only setter and pass only those ids, so no other value can arise.
- Progress bars as floating point: the percentages are exact reals.
- React rendering a falsy 0 as text: only its effect on the urgent tag is
  modelled (`PetCard.UrgentDiffersOnTheDay`).
- The pluralisation in the snooze toast: display only.
- Tutorials.TutorialsScreen.Tab: states its contents as a filter of the
  catalogue; concrete tab sizes of the sixteen-entry catalogue are not
  stated, only the block structure (`Tutorials.CatalogueBlocks`) and the
  generic tab lemmas.
