/**
 * The numbers of the stats bar (`src/components/Stats.tsx`): seats left out of
 * 120 and the whole days until the launch on 2025-01-25. The current time is a
 * parameter, in milliseconds since the Unix epoch.
 */
module Stats {
  const TotalSeats: int := 120

  /** `new Date("2025-01-25")`: midnight UTC, in milliseconds since the epoch. */
  const LaunchMs: int := 1737763200000

  const MsPerDay: int := 86400000

  /** `totalSeats - builderSignups`, not clamped at zero. */
  function SeatsRemaining(builderSignups: int): (seats: int)
    ensures builderSignups + seats == TotalSeats
    ensures seats < 0 <==> builderSignups > TotalSeats
  {
    TotalSeats - builderSignups
  }

  /**
   * `Math.ceil((launch - today) / 86400000)`: the smallest whole number of days
   * covering the remaining time.
   */
  function DaysUntilLaunch(todayMs: int): (days: int)
    ensures (days - 1) * MsPerDay < LaunchMs - todayMs <= days * MsPerDay
  {
    -((todayMs - LaunchMs) / MsPerDay)
  }

  /** A difference of exactly `n` days gives `n`. */
  lemma WholeDaysExact(n: int)
    ensures DaysUntilLaunch(LaunchMs - n * MsPerDay) == n
  {
    var d := DaysUntilLaunch(LaunchMs - n * MsPerDay);
    assert (d - 1) * MsPerDay < n * MsPerDay <= d * MsPerDay;
  }

  /** Any part of a day left over counts as a whole day. */
  lemma PartialDayRoundsUp(n: int, extra: int)
    requires 0 < extra < MsPerDay
    ensures DaysUntilLaunch(LaunchMs - n * MsPerDay - extra) == n + 1
  {
    var d := DaysUntilLaunch(LaunchMs - n * MsPerDay - extra);
    assert (d - 1) * MsPerDay < n * MsPerDay + extra <= d * MsPerDay;
  }

  /** From the launch instant on, the countdown is zero or negative. */
  lemma NonPositiveAfterLaunch(todayMs: int)
    requires todayMs >= LaunchMs
    ensures DaysUntilLaunch(todayMs) <= 0
  {
  }

  /** Before the launch instant, the countdown is at least one. */
  lemma PositiveBeforeLaunch(todayMs: int)
    requires todayMs < LaunchMs
    ensures DaysUntilLaunch(todayMs) >= 1
  {
  }

  /** The countdown never goes up as time passes. */
  lemma CountdownMonotone(earlier: int, later: int)
    requires earlier <= later
    ensures DaysUntilLaunch(later) <= DaysUntilLaunch(earlier)
  {
    var a := DaysUntilLaunch(earlier);
    var b := DaysUntilLaunch(later);
    assert (b - 1) * MsPerDay < LaunchMs - later <= LaunchMs - earlier <= a * MsPerDay;
  }

  /** A card's value; the page shows numbers with `toString()` and the days with a " days" suffix. */
  datatype StatValue = Count(n: int) | Days(d: int)

  datatype StatEntry = StatEntry(title: string, value: StatValue)

  /** The three cards, in their fixed order. */
  function StatsEntries(builderSignups: int, todayMs: int): (entries: seq<StatEntry>)
    ensures |entries| == 3
    ensures entries[0] == StatEntry("Builder Signups", Count(builderSignups))
    ensures entries[1] == StatEntry("Seats Remaining", Count(SeatsRemaining(builderSignups)))
    ensures entries[2] == StatEntry("Countdown to launch", Days(DaysUntilLaunch(todayMs)))
  {
    [ StatEntry("Builder Signups", Count(builderSignups)),
      StatEntry("Seats Remaining", Count(TotalSeats - builderSignups)),
      StatEntry("Countdown to launch", Days(DaysUntilLaunch(todayMs))) ]
  }

  /** The first two cards always add up to the 120 seats. */
  lemma SignupsAndSeatsSum(builderSignups: int, todayMs: int)
    ensures var e := StatsEntries(builderSignups, todayMs);
      e[0].value.n + e[1].value.n == TotalSeats
  {
  }
}
