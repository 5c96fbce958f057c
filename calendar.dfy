/**
 * Timestamps as the `datetime` columns `deadline` and `completed_at` hold
 * them, already resolved to the display time zone.
 */
module Calendar {

  type Month = m: int | 1 <= m <= 12 witness 1
  type Day = d: int | 1 <= d <= 31 witness 1
  type Hour = h: int | 0 <= h < 24
  type Minute = m: int | 0 <= m < 60
  /** Up to 60, since a Ruby `Time` admits a leap second. */
  type Second = s: int | 0 <= s <= 60

  /** A calendar date; the year is proleptic Gregorian and may be zero or negative. */
  datatype Date = Date(year: int, month: Month, day: Day)

  /** A calendar date with its time of day. */
  datatype DateTime = DateTime(date: Date, hour: Hour, minute: Minute, second: Second)
}
