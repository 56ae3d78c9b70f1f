/**
 * Day arithmetic on epoch milliseconds.
 *
 * The app computes "start of day" with java.util.Calendar in the device's
 * time zone. The model fixes that zone as a constant offset from UTC
 * (`zoneOffset`, in milliseconds), so a local day always has 86 400 000 ms.
 */
module Clock {

  /** 24 * 60 * 60 * 1000, the constant the app adds for "tomorrow" and "end of day". */
  const DayMillis: int := 86_400_000

  /** Local midnight at or before `t`, in a zone `zoneOffset` ms ahead of UTC. */
  function StartOfDay(t: int, zoneOffset: int): (d: int)
    ensures d <= t
    ensures t - d < DayMillis
    ensures (d + zoneOffset) % DayMillis == 0
  {
    t - (t + zoneOffset) % DayMillis
  }

  /** The three facts the rest of the model relies on: idempotent, never later, within a day. */
  lemma StartOfDayIdempotent(t: int, zoneOffset: int)
    ensures StartOfDay(StartOfDay(t, zoneOffset), zoneOffset) == StartOfDay(t, zoneOffset)
  {
    var d := StartOfDay(t, zoneOffset);
    assert (d + zoneOffset) % DayMillis == 0;
  }

  /** Two instants have the same start of day exactly when they fall in the same local day. */
  lemma StartOfDayCharacterized(t: int, d: int, zoneOffset: int)
    ensures StartOfDay(t, zoneOffset) == d <==>
              (d + zoneOffset) % DayMillis == 0 && d <= t < d + DayMillis
  {
    var s := StartOfDay(t, zoneOffset);
    if (d + zoneOffset) % DayMillis == 0 && d <= t < d + DayMillis {
      SameGridPoint(s + zoneOffset, d + zoneOffset, t + zoneOffset);
    }
  }

  /** Two multiples of a day that are both within a day below `x` coincide. */
  lemma SameGridPoint(a: int, b: int, x: int)
    requires a % DayMillis == 0 && b % DayMillis == 0
    requires a <= x < a + DayMillis && b <= x < b + DayMillis
    ensures a == b
  {
    var qa, qb := a / DayMillis, b / DayMillis;
    assert a == qa * DayMillis;
    assert b == qb * DayMillis;
  }

  /** The start of the following day is the start of today plus one day. */
  lemma NextDayStart(t: int, zoneOffset: int)
    ensures StartOfDay(t + DayMillis, zoneOffset) == StartOfDay(t, zoneOffset) + DayMillis
  {
    var d := StartOfDay(t, zoneOffset);
    StartOfDayCharacterized(t + DayMillis, d + DayMillis, zoneOffset);
  }

  /** A later instant never has an earlier start of day. */
  lemma StartOfDayMonotone(a: int, b: int, zoneOffset: int)
    requires a <= b
    ensures StartOfDay(a, zoneOffset) <= StartOfDay(b, zoneOffset)
  {
    var da, db := StartOfDay(a, zoneOffset), StartOfDay(b, zoneOffset);
    var qa, qb := (da + zoneOffset) / DayMillis, (db + zoneOffset) / DayMillis;
    assert da + zoneOffset == qa * DayMillis;
    assert db + zoneOffset == qb * DayMillis;
    // da <= b < db + DayMillis, so qa * DayMillis < (qb + 1) * DayMillis
    assert qa * DayMillis < (qb + 1) * DayMillis;
    assert qa <= qb;
  }
}
