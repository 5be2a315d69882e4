/** One row of the notifications screen: its relative-day label, its priority
    label, and the actions its buttons and menu offer. */
module NotificationItem {
  import opened Common
  import Notifications

  const Today: string := "Hoje"
  const Tomorrow: string := "Amanhã"
  const Yesterday: string := "Ontem"
  const InPrefix: string := "Em "
  const DaysSuffix: string := " dias"
  const AgoSuffix: string := " dias atrás"

  /** `formatDaysLeft`. */
  function FormatDaysLeft(daysLeft: int): (r: string)
    ensures daysLeft == 0 <==> r == Today
    ensures daysLeft == 1 <==> r == Tomorrow
    ensures daysLeft == -1 <==> r == Yesterday
    ensures daysLeft > 1 ==> r == InPrefix + NatToString(daysLeft) + DaysSuffix
    ensures daysLeft < -1 ==> r == NatToString(-daysLeft) + AgoSuffix
  {
    if daysLeft == 0 then Today
    else if daysLeft == 1 then Tomorrow
    else if daysLeft == -1 then Yesterday
    else if daysLeft > 0 then InPrefix + NatToString(daysLeft) + DaysSuffix
    else NatToString(-daysLeft) + AgoSuffix
  }

  /** Different day counts never share a label: the five forms start
      differently, and within a form the number is recovered from the
      digits. */
  lemma FormatDaysLeftInjective(a: int, b: int)
    requires FormatDaysLeft(a) == FormatDaysLeft(b)
    ensures a == b
  {
    var s := FormatDaysLeft(a);
    if a > 1 {
      assert s[0] == 'E';
      assert s[|InPrefix|..|s| - |DaysSuffix|] == NatToString(a);
      assert s[|InPrefix|..|s| - |DaysSuffix|] == NatToString(b);
      NatToStringInjective(a, b);
    } else if a < -1 {
      assert s[0] == NatToString(-a)[0];
      assert s[..|s| - |AgoSuffix|] == NatToString(-a);
      assert s[..|s| - |AgoSuffix|] == NatToString(-b);
      NatToStringInjective(-a, -b);
    }
  }

  /** The priority badge: 'Alta', 'Média', or 'Baixa' for anything else. */
  function PriorityLabel(priority: string): (r: string)
    ensures r == "Alta" <==> priority == "high"
    ensures r == "Média" <==> priority == "medium"
    ensures r == "Baixa" <==> priority != "high" && priority != "medium"
  {
    if priority == "high" then "Alta" else if priority == "medium" then "Média" else "Baixa"
  }

  /** What a click asks the screen to do. */
  datatype ItemAction = MarkAsRead(id: int) | Snooze(id: int, days: int) | Dismiss(id: int)

  /** The check button next to the row. */
  function ButtonActions(n: Notifications.Notification): (r: seq<ItemAction>)
    ensures r == [] <==> n.isRead
    ensures forall a :: a in r ==> a == MarkAsRead(n.id)
  {
    if n.isRead then [] else [MarkAsRead(n.id)]
  }

  /** The dropdown: mark read when unread, snooze by one day, three days or a
      week, remove. */
  function MenuActions(n: Notifications.Notification): (r: seq<ItemAction>)
    ensures MarkAsRead(n.id) in r <==> !n.isRead
    ensures Snooze(n.id, 1) in r && Snooze(n.id, 3) in r && Snooze(n.id, 7) in r && Dismiss(n.id) in r
    ensures forall a :: a in r ==> a.id == n.id
    ensures forall a :: a in r && a.Snooze? ==> a.days in {1, 3, 7}
  {
    (if n.isRead then [] else [MarkAsRead(n.id)])
      + [Snooze(n.id, 1), Snooze(n.id, 3), Snooze(n.id, 7), Dismiss(n.id)]
  }

  /** The screen's handler for an action; `newDueDate` is the clock-derived
      date a snooze writes. */
  function Perform(ns: seq<Notifications.Notification>, a: ItemAction, newDueDate: string): seq<Notifications.Notification> {
    match a
    case MarkAsRead(id) => Notifications.MarkedRead(ns, id)
    case Snooze(id, days) => Notifications.Snoozed(ns, id, days, newDueDate)
    case Dismiss(id) => Notifications.Dismissed(ns, id)
  }

  /** Whatever a row offers, acting on it never changes another reminder: a
      record with a different id comes out exactly as it went in (or, for a
      dismissal, is still there). */
  lemma ActionsTouchOnlyTheirRow(ns: seq<Notifications.Notification>, n: Notifications.Notification, a: ItemAction, due: string)
    requires a in ButtonActions(n) + MenuActions(n)
    ensures a.id == n.id
    ensures !a.Dismiss? ==> forall i :: 0 <= i < |ns| && ns[i].id != n.id ==> Perform(ns, a, due)[i] == ns[i]
    ensures a.Dismiss? ==> forall m :: m in ns && m.id != n.id ==> m in Perform(ns, a, due)
  {
    assert a in ButtonActions(n) || a in MenuActions(n);
  }
}
