/** The pet card: its own copy of the event colour, the notification badge,
    the next-event text and the urgent tag, which differs from the home
    page's on the day of the event. */
module PetCard {
  import opened Common
  import HomePage

  /** `getEventColor` of the card. */
  function CardEventColor(daysLeft: int): (c: HomePage.EventColour)
    ensures c == HomePage.Red <==> daysLeft <= 7
    ensures c == HomePage.Orange <==> 8 <= daysLeft <= 14
    ensures c == HomePage.Green <==> daysLeft > 14
  {
    if daysLeft <= 7 then HomePage.Red else if daysLeft <= 14 then HomePage.Orange else HomePage.Green
  }

  /** The card colours an event exactly as the home page does. */
  lemma SameColoursAsHomePage(daysLeft: int)
    ensures CardEventColor(daysLeft) == HomePage.EventColor(daysLeft)
  {
  }

  /** `pet.notifications && pet.notifications > 0`: present, non-zero and
      positive. */
  predicate NotificationBadge(p: HomePage.Pet) {
    p.notifications.Some? && p.notifications.value != 0 && p.notifications.value > 0
  }

  /** The badge appears for the same pets as on the home page. */
  lemma BadgeAsOnHomePage(p: HomePage.Pet)
    ensures NotificationBadge(p) <==> HomePage.HasNotifications(p)
  {
  }

  /** The card's next-event line, the same text as on the home page. */
  function CardEventText(daysLeft: int): (r: string)
    ensures r == "Hoje!" <==> daysLeft == 0
    ensures r == HomePage.NextEventText(daysLeft)
  {
    if daysLeft == 0 then "Hoje!" else "Em " + IntToString(daysLeft) + " dia" + (if daysLeft > 1 then "s" else "")
  }

  /** `pet.nextEvent?.daysLeft && pet.nextEvent.daysLeft <= 7`: a zero
      count is falsy, so an event due today is not tagged. */
  predicate CardUrgent(p: HomePage.Pet) {
    p.nextEvent.Some? && p.nextEvent.value.daysLeft != 0 && p.nextEvent.value.daysLeft <= 7
  }

  /** The card's tag is the home page's minus the events due today. */
  lemma UrgentDiffersOnTheDay(p: HomePage.Pet)
    ensures CardUrgent(p) <==> HomePage.Urgent(p) && p.nextEvent.value.daysLeft != 0
    ensures p.nextEvent.Some? && p.nextEvent.value.daysLeft == 0 ==> HomePage.Urgent(p) && !CardUrgent(p)
  {
  }

  /** `pet.vaccinationProgress || 0`. */
  function ProgressShown(p: HomePage.Pet): (n: int)
    ensures p.vaccinationProgress.None? ==> n == 0
    ensures p.vaccinationProgress.Some? ==> n == p.vaccinationProgress.value
  {
    if p.vaccinationProgress.Some? then p.vaccinationProgress.value else 0
  }
}
