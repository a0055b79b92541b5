/** Wall-clock schedule rules (src/schedule.rs). */
module Schedule {
  import opened Wrappers

  datatype WallClock = WallClock(year: int, month: nat, day: nat, hour: nat, minute: nat, weekday: nat) {
    function MinutesSinceMidnight(): nat { hour * 60 + minute }

    predicate IsOddDay() { day % 2 == 1 }
  }

  datatype Rule =
    | Interval(secs: nat)
    | Daily(hour: nat, minute: nat)
    | Weekly(weekday: nat, hour: nat, minute: nat)
    | OddDays(hour: nat, minute: nat)

  predicate InWindow(now: WallClock, hour: nat, minute: nat) {
    var target := hour * 60 + minute;
    target <= now.MinutesSinceMidnight() < target + 5
  }

  /** `lastDay` is the day of the month on which the task last ran. */
  predicate IsDue(rule: Rule, now: WallClock, lastDay: Option<nat>) {
    match rule
    case Interval(_) => false
    case Daily(h, m) => InWindow(now, h, m) && lastDay != Some(now.day)
    case Weekly(w, h, m) => now.weekday == w && InWindow(now, h, m) && lastDay != Some(now.day)
    case OddDays(h, m) => now.IsOddDay() && InWindow(now, h, m) && lastDay != Some(now.day)
  }

  /** Calendar order on dates. */
  predicate DateBefore(a: WallClock, b: WallClock) {
    a.year < b.year || (a.year == b.year && (a.month < b.month || (a.month == b.month && a.day < b.day)))
  }
}
