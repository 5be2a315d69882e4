/** Age arithmetic shared by the components. The host's `Date` parsing is not
    modelled: a date enters either as the (year, month, day) its getters
    report or as an instant in milliseconds since the epoch. */
module Age {

  /** `getFullYear()`, `getMonth()` (0 = January) and `getDate()`. */
  datatype CalendarDate = CalendarDate(year: int, month: int, day: int)

  predicate ValidDate(d: CalendarDate) {
    0 <= d.month < 12 && 1 <= d.day <= 31
  }

  /** `d` falls in a later calendar month than `e`. */
  predicate LaterMonth(d: CalendarDate, e: CalendarDate) {
    d.year > e.year || (d.year == e.year && d.month > e.month)
  }

  /** The month difference `(today.getFullYear() - birth.getFullYear()) * 12
      + today.getMonth() - birth.getMonth()`, written out identically in
      CareScheduleCard, TimelineCard and PetRegistration. Its sign says which
      calendar month comes first; the day of the month plays no part. */
  function MonthsBetween(today: CalendarDate, birth: CalendarDate): (r: int)
    ensures ValidDate(today) && ValidDate(birth) ==>
      (r < 0 <==> LaterMonth(birth, today)) &&
      (r == 0 <==> today.year == birth.year && today.month == birth.month)
  {
    (today.year - birth.year) * 12 + today.month - birth.month
  }

  /** Only the year and the month count: two days of the same month give the
      same age. */
  lemma MonthsIgnoreDay(today: CalendarDate, birth: CalendarDate, todayDay: int, birthDay: int)
    ensures MonthsBetween(today.(day := todayDay), birth.(day := birthDay)) == MonthsBetween(today, birth)
  {
  }

  /** The calendar month after `d`, same day number. */
  function NextMonth(d: CalendarDate): CalendarDate {
    if d.month == 11 then CalendarDate(d.year + 1, 0, d.day) else d.(month := d.month + 1)
  }

  /** Each calendar month that passes adds one to the age, across year ends
      too. */
  lemma MonthsStep(today: CalendarDate, birth: CalendarDate)
    requires ValidDate(today)
    ensures MonthsBetween(NextMonth(today), birth) == MonthsBetween(today, birth) + 1
  {
  }

  /** `1000 * 60 * 60 * 24`. */
  const MsPerDay: nat := 86400000

  function Abs(x: int): nat {
    if x < 0 then -x else x
  }

  /** `Math.ceil(Math.abs(today - birth) / (1000 * 60 * 60 * 24))`: whole days
      needed to cover the distance between two instants, in either
      direction. */
  function ElapsedDays(todayMs: int, birthMs: int): (d: nat)
    ensures Abs(todayMs - birthMs) <= d * MsPerDay
    ensures (d - 1) * MsPerDay < Abs(todayMs - birthMs) || d == 0
  {
    var diff := Abs(todayMs - birthMs);
    (diff + MsPerDay - 1) / MsPerDay
  }

  /** A date in the future and one in the past at the same distance give the
      same number of days. */
  lemma ElapsedDaysSymmetric(todayMs: int, birthMs: int, distance: int)
    ensures ElapsedDays(todayMs, todayMs - distance) == ElapsedDays(todayMs, todayMs + distance)
  {
  }
}
