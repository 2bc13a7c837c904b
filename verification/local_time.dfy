/**
 * The date comparisons of the validator on time instants rather than day
 * numbers. An instant is milliseconds since the epoch, UTC; a zone's offset
 * is what it adds to UTC to get local time. A date-only string such as
 * "2024-01-15" parses to UTC midnight of that day, and `setHours(0, 0, 0, 0)`
 * moves an instant to the local midnight of its local day. The validator
 * normalises the value (and today) this way, but compares it with a literal
 * `minDate`/`maxDate` as parsed, so the two sides can sit at different
 * midnights.
 */
module LocalTime {

  const DayMs := 86400000

  /** An offset of less than a day either way. */
  predicate ValidOffset(offset: int) {
    -DayMs < offset < DayMs
  }

  /** The instant `new Date(dateOnly)` gives for the day numbered `day`. */
  function DateOnly(day: int): int {
    day * DayMs
  }

  /** The local day an instant falls on. */
  function LocalDay(instant: int, offset: int): int {
    (instant + offset) / DayMs
  }

  /** `setHours(0, 0, 0, 0)`: the local midnight of the instant's local day. */
  function Midnight(instant: int, offset: int): (m: int)
    ensures m <= instant < m + DayMs
    ensures LocalDay(m, offset) == LocalDay(instant, offset)
    ensures (m + offset) % DayMs == 0
  {
    LocalDay(instant, offset) * DayMs - offset
  }

  /** The local day of a date-only instant: the day itself east of UTC, the
      day before west of it. */
  lemma DateOnlyLocalDay(day: int, offset: int)
    requires ValidOffset(offset)
    ensures LocalDay(DateOnly(day), offset) == if offset >= 0 then day else day - 1
  {
    var x := DateOnly(day) + offset;
    if offset >= 0 {
      assert day * DayMs <= x < (day + 1) * DayMs;
    } else {
      assert (day - 1) * DayMs <= x < day * DayMs;
    }
  }

  /** The `minDate` check as written (src/form/hook/useValidator.ts:72, 86-89):
      the normalised value against the literal bound as parsed. */
  predicate BeforeLiteralMinDate(valueDay: int, boundDay: int, offset: int) {
    Midnight(DateOnly(valueDay), offset) < DateOnly(boundDay)
  }

  /** Outside UTC a value on the bound's own day is rejected: the check is
      not inclusive. */
  lemma {:induction false} BoundDayRejected(day: int, offset: int)
    requires ValidOffset(offset) && offset != 0
    ensures BeforeLiteralMinDate(day, day, offset)
  {
    DateOnlyLocalDay(day, offset);
  }

  /** The discrepancy at UTC+5 for a `minDate` of 2024-01-15 (day 19737). */
  lemma BoundDayRejectedAtUtcPlus5()
    ensures BeforeLiteralMinDate(19737, 19737, 5 * 3600000)
  {
    BoundDayRejected(19737, 5 * 3600000);
  }

  /** In UTC the check as written is the day order. */
  lemma {:induction false} UtcLiteralMinDateIsDayOrder(valueDay: int, boundDay: int)
    ensures BeforeLiteralMinDate(valueDay, boundDay, 0) <==> valueDay < boundDay
  {
    DateOnlyLocalDay(valueDay, 0);
  }

  /** The `maxDate` check as written (src/form/hook/useValidator.ts:72, 96-99)
      is the day order in every zone: only the lower bound is off. */
  predicate AfterLiteralMaxDate(valueDay: int, boundDay: int, offset: int) {
    Midnight(DateOnly(valueDay), offset) > DateOnly(boundDay)
  }

  lemma {:induction false} LiteralMaxDateIsDayOrder(valueDay: int, boundDay: int, offset: int)
    requires ValidOffset(offset)
    ensures AfterLiteralMaxDate(valueDay, boundDay, offset) <==> valueDay > boundDay
  {
    DateOnlyLocalDay(valueDay, offset);
  }

  /** The intended check: both sides at local midnight. */
  predicate BeforeNormalisedMinDate(valueDay: int, boundDay: int, offset: int) {
    Midnight(DateOnly(valueDay), offset) < Midnight(DateOnly(boundDay), offset)
  }

  /** With the bound normalised too, the check is the day order the rest of
      the model uses: a value on the bound's day passes in every zone. */
  lemma {:induction false} NormalisedMinDateIsDayOrder(valueDay: int, boundDay: int, offset: int)
    requires ValidOffset(offset)
    ensures BeforeNormalisedMinDate(valueDay, boundDay, offset) <==> valueDay < boundDay
  {
    DateOnlyLocalDay(valueDay, offset);
    DateOnlyLocalDay(boundDay, offset);
  }
}
