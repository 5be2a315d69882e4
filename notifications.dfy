/** The notifications screen: a list of reminders that the user marks read,
    snoozes by a number of days or dismisses; the unread, overdue and upcoming
    groups drawn from it; and the upcoming group shown nearest first. */
module Notifications {
  import opened Common

  /** One reminder. `dueDate` is kept as an opaque string: only snoozing
      rewrites it, with a value derived from the clock. */
  datatype Notification = Notification(
    id: int,
    kind: string,
    petName: string,
    title: string,
    description: string,
    dueDate: string,
    priority: string,
    status: string,
    daysLeft: int,
    isRead: bool)

  /** The list the screen starts with. */
  const InitialNotifications: seq<Notification> := [
    Notification(1, "vaccination", "Buddy", "Vacina V10", "Segunda dose da vacina V10",
      "2025-01-25", "high", "upcoming", 3, false),
    Notification(2, "birthday", "Luna", "Aniversário do pet", "Luna faz 1 ano amanhã!",
      "2025-01-23", "medium", "upcoming", 1, false),
    Notification(3, "checkup", "Max", "Consulta de rotina", "Check-up anual vencido",
      "2025-01-15", "high", "overdue", -7, false),
    Notification(4, "medication", "Bella", "Vermífugo", "Aplicação de vermífugo",
      "2025-01-24", "medium", "upcoming", 2, false),
    Notification(5, "vaccination", "Charlie", "Vacina Antirrábica", "Reforço anual da antirrábica",
      "2025-01-26", "high", "upcoming", 4, true)
  ]

  // ---------------------------------------------------------------------
  // The three handlers, as list transformations

  function MarkOne(id: int): Notification -> Notification {
    (n: Notification) => if n.id == id then n.(isRead := true) else n
  }

  /** `handleMarkAsRead`: every record with the id becomes read, with all its
      other fields kept; every other record is untouched. */
  function MarkedRead(ns: seq<Notification>, id: int): (r: seq<Notification>)
    ensures |r| == |ns|
    ensures forall i :: 0 <= i < |ns| && ns[i].id == id ==> r[i].isRead && r[i].(isRead := ns[i].isRead) == ns[i]
    ensures forall i :: 0 <= i < |ns| && ns[i].id != id ==> r[i] == ns[i]
  {
    MapSeq(ns, MarkOne(id))
  }

  /** Marking read twice is marking read once. */
  lemma MarkedReadIdempotent(ns: seq<Notification>, id: int)
    ensures MarkedRead(MarkedRead(ns, id), id) == MarkedRead(ns, id)
  {
    var once := MarkedRead(ns, id);
    var twice := MarkedRead(once, id);
    forall i | 0 <= i < |ns| ensures twice[i] == once[i] {
      if ns[i].id == id {
        assert once[i].id == id && once[i].isRead;
      }
    }
  }

  function SnoozeOne(id: int, days: int, newDueDate: string): Notification -> Notification {
    (n: Notification) =>
      if n.id == id then n.(dueDate := newDueDate, daysLeft := n.daysLeft + days, isRead := false) else n
  }

  /** `handleSnooze`: the records with the id are `days` days further off,
      unread again and carry the new due date; their status and every other
      field stay as they were, so an overdue reminder stays overdue. Other
      records are untouched. */
  function Snoozed(ns: seq<Notification>, id: int, days: int, newDueDate: string): (r: seq<Notification>)
    ensures |r| == |ns|
    ensures forall i :: 0 <= i < |ns| ==> r[i].id == ns[i].id && r[i].status == ns[i].status
    ensures forall i :: 0 <= i < |ns| && ns[i].id == id ==>
      && r[i].daysLeft == ns[i].daysLeft + days
      && !r[i].isRead
      && r[i].dueDate == newDueDate
      && r[i].(dueDate := ns[i].dueDate, daysLeft := ns[i].daysLeft, isRead := ns[i].isRead) == ns[i]
    ensures forall i :: 0 <= i < |ns| && ns[i].id != id ==> r[i] == ns[i]
  {
    MapSeq(ns, SnoozeOne(id, days, newDueDate))
  }

  /** Snoozing by `a` days and then by `b` days leaves the reminder `a + b`
      days further off. */
  lemma SnoozeAdds(ns: seq<Notification>, id: int, a: int, b: int, due1: string, due2: string)
    ensures Snoozed(Snoozed(ns, id, a, due1), id, b, due2) == Snoozed(ns, id, a + b, due2)
  {
    var lhs := Snoozed(Snoozed(ns, id, a, due1), id, b, due2);
    var rhs := Snoozed(ns, id, a + b, due2);
    forall i | 0 <= i < |ns| ensures lhs[i] == rhs[i] {
      if ns[i].id == id {
        assert Snoozed(ns, id, a, due1)[i].id == id;
      }
    }
  }

  function KeepOthers(id: int): Notification -> bool {
    (n: Notification) => n.id != id
  }

  /** `handleDismiss`: removes the records with the id; the others stay, in
      their original order. */
  function Dismissed(ns: seq<Notification>, id: int): (r: seq<Notification>)
    ensures forall n :: n in r <==> n in ns && n.id != id
  {
    Filter(ns, KeepOthers(id))
  }

  function HasId(id: int): Notification -> bool {
    (n: Notification) => n.id == id
  }

  /** Exactly the matching records go: the survivors and the removed ones add
      up to the old list, and when no record has the id the list is
      unchanged. */
  lemma DismissedExactly(ns: seq<Notification>, id: int)
    ensures |Dismissed(ns, id)| + |Filter(ns, HasId(id))| == |ns|
    ensures (forall i :: 0 <= i < |ns| ==> ns[i].id != id) ==> Dismissed(ns, id) == ns
  {
    FilterSplit(ns, KeepOthers(id), HasId(id));
    if forall i :: 0 <= i < |ns| ==> ns[i].id != id {
      FilterKeepsAll(ns, KeepOthers(id));
    }
  }

  /** Dismissal keeps the surrounding order: dismissing from a concatenation
      dismisses from each part. */
  lemma DismissedKeepsOrder(a: seq<Notification>, b: seq<Notification>, id: int)
    ensures Dismissed(a + b, id) == Dismissed(a, id) + Dismissed(b, id)
  {
    FilterConcat(a, b, KeepOthers(id));
  }

  // ---------------------------------------------------------------------
  // Groups

  function IsUnread(): Notification -> bool {
    (n: Notification) => !n.isRead
  }

  function HasStatus(status: string): Notification -> bool {
    (n: Notification) => n.status == status
  }

  /** `unreadNotifications`. */
  function Unread(ns: seq<Notification>): (r: seq<Notification>)
    ensures forall n :: n in r <==> n in ns && !n.isRead
  {
    Filter(ns, IsUnread())
  }

  /** The records with one status, in list order: both status groups of the
      screen are this filter. */
  function Group(ns: seq<Notification>, status: string): (r: seq<Notification>)
    ensures forall n :: n in r <==> n in ns && n.status == status
  {
    Filter(ns, HasStatus(status))
  }

  /** `overdueNotifications`. */
  function Overdue(ns: seq<Notification>): (r: seq<Notification>)
    ensures forall n :: n in r <==> n in ns && n.status == "overdue"
  {
    Group(ns, "overdue")
  }

  /** `upcomingNotifications`. */
  function Upcoming(ns: seq<Notification>): (r: seq<Notification>)
    ensures forall n :: n in r <==> n in ns && n.status == "upcoming"
  {
    Group(ns, "upcoming")
  }

  /** The number on the unread badge and tile is the number of records still
      unread, counted one by one. */
  lemma UnreadCountIsCount(ns: seq<Notification>)
    ensures |Unread(ns)| == Count(ns, IsUnread())
  {
    FilterLengthIsCount(ns, IsUnread());
  }

  /** No record is both overdue and upcoming, so the two groups together are
      never longer than the list. */
  lemma GroupsDisjoint(ns: seq<Notification>)
    ensures forall n :: !(n in Overdue(ns) && n in Upcoming(ns))
    ensures |Overdue(ns)| + |Upcoming(ns)| <= |ns|
  {
    var notOverdue := (n: Notification) => n.status != "overdue";
    FilterMonotone(ns, HasStatus("upcoming"), notOverdue);
    FilterSplit(ns, HasStatus("overdue"), notOverdue);
  }

  /** Marking read never moves a record between the overdue and upcoming
      groups: the groups of the new list are the old groups, marked. */
  lemma MarkedReadKeepsGroups(ns: seq<Notification>, id: int, status: string)
    ensures Group(MarkedRead(ns, id), status) == MarkedRead(Group(ns, status), id)
  {
    FilterMap(ns, MarkOne(id), HasStatus(status), HasStatus(status));
  }

  /** Snoozing does not move a record between groups either: an overdue
      reminder stays overdue however many days are added. */
  lemma SnoozedKeepsGroups(ns: seq<Notification>, id: int, days: int, due: string, status: string)
    ensures Group(Snoozed(ns, id, days, due), status) == Snoozed(Group(ns, status), id, days, due)
  {
    FilterMap(ns, SnoozeOne(id, days, due), HasStatus(status), HasStatus(status));
  }

  /** After marking read, the unread list is the old unread list without the
      records of that id, in the same order. */
  lemma MarkedReadLeavesUnread(ns: seq<Notification>, id: int)
    ensures Unread(MarkedRead(ns, id)) == Dismissed(Unread(ns), id)
  {
    var both := (n: Notification) => !n.isRead && n.id != id;
    FilterMap(ns, MarkOne(id), IsUnread(), both);
    MapSeqIdentity(Filter(ns, both), MarkOne(id));
    FilterFilter(ns, IsUnread(), KeepOthers(id), both);
  }

  /** Dismissing from the list dismisses from each group. */
  lemma DismissedKeepsGroups(ns: seq<Notification>, id: int, status: string)
    ensures Group(Dismissed(ns, id), status) == Dismissed(Group(ns, status), id)
  {
    var both := (n: Notification) => n.id != id && n.status == status;
    FilterFilter(ns, KeepOthers(id), HasStatus(status), both);
    FilterFilter(ns, HasStatus(status), KeepOthers(id), both);
  }

  /** The starting list: four unread, one overdue, four upcoming. */
  lemma InitialGroups()
    ensures |Unread(InitialNotifications)| == 4
    ensures |Overdue(InitialNotifications)| == 1
    ensures |Upcoming(InitialNotifications)| == 4
  {
    UnreadCountIsCount(InitialNotifications);
    FilterLengthIsCount(InitialNotifications, HasStatus("overdue"));
    FilterLengthIsCount(InitialNotifications, HasStatus("upcoming"));
  }

  function DaysKey(n: Notification): real {
    n.daysLeft as real
  }

  /** The upcoming group as listed: sorted in place by `daysLeft`, nearest
      first. */
  method UpcomingInOrder(ns: seq<Notification>) returns (r: seq<Notification>)
    ensures SortedBy(r, DaysKey)
    ensures multiset(r) == multiset(Upcoming(ns))
  {
    r := SortedCopy(Upcoming(ns), DaysKey);
  }

  // ---------------------------------------------------------------------
  // Component state

  class NotificationList {
    var notifications: seq<Notification>

    constructor ()
      ensures notifications == InitialNotifications
    {
      notifications := InitialNotifications;
    }

    method MarkAsRead(id: int)
      modifies this
      ensures notifications == MarkedRead(old(notifications), id)
    {
      notifications := MarkedRead(notifications, id);
    }

    /** `newDueDate` is the date `days` days from the current clock, as the
        host formats it. */
    method Snooze(id: int, days: int, newDueDate: string)
      modifies this
      ensures notifications == Snoozed(old(notifications), id, days, newDueDate)
    {
      notifications := Snoozed(notifications, id, days, newDueDate);
    }

    method Dismiss(id: int)
      modifies this
      ensures notifications == Dismissed(old(notifications), id)
    {
      notifications := Dismissed(notifications, id);
    }

    /** The three tiles: overdue, upcoming and unread counts. */
    method Tiles() returns (overdue: nat, upcoming: nat, unread: nat)
      ensures overdue + upcoming <= |notifications|
      ensures unread == Count(notifications, IsUnread())
      ensures overdue == |Overdue(notifications)| && upcoming == |Upcoming(notifications)|
    {
      GroupsDisjoint(notifications);
      UnreadCountIsCount(notifications);
      overdue, upcoming, unread := |Overdue(notifications)|, |Upcoming(notifications)|, |Unread(notifications)|;
    }

    method UpcomingShown() returns (r: seq<Notification>)
      ensures SortedBy(r, DaysKey)
      ensures multiset(r) == multiset(Upcoming(notifications))
    {
      r := UpcomingInOrder(notifications);
    }
  }
}
