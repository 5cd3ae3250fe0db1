/** Calendar days and times of day, standing in for the dayjs and Date
    values of the components. Only the fields the rules look at are kept:
    a day is a (year, month, day) triple and a time an (hour, minute) pair. */
module Calendar {

  datatype Date = Date(year: int, month: int, day: int)

  datatype Time = Time(hour: int, minute: int)

  /** Chronological order of calendar days (lexicographic on the triple);
      this is the comparison of two Date objects whose time of day was
      reset to midnight by `setHours(0, 0, 0, 0)`. */
  predicate DayLeq(a: Date, b: Date) {
    a.year < b.year
    || (a.year == b.year && a.month < b.month)
    || (a.year == b.year && a.month == b.month && a.day <= b.day)
  }
}
