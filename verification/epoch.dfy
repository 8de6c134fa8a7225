/** Instants and the two astronomical reference epochs J2000 and J2010, with
    the elapsed days and Julian centuries from an epoch to an instant. */
module Epoch {

  /** A zoned date-time: the instant, as milliseconds since
      1970-01-01T00:00Z, and the zone's offset from UTC in seconds. */
  datatype ZonedDateTime = ZonedDateTime(epochMillis: int, offsetSeconds: int)

  const MILLIS_PER_DAY: int := 1000 * 60 * 60 * 24
  const MILLIS_PER_JC: real := (1000 * 60 * 60 * 24) as real * 365.25 * 100.0

  /** Days since 1970-01-01 of a proleptic Gregorian civil date
      (days-from-civil, counting years from March). */
  function DaysFromCivil(year: int, month: int, day: int): int
    requires 1 <= month <= 12
  {
    var y := if month <= 2 then year - 1 else year;
    var era := y / 400;
    var yoe := y - era * 400;
    var mp := if month > 2 then month - 3 else month + 9;
    var doy := (153 * mp + 2) / 5 + day - 1;
    var doe := yoe * 365 + yoe / 4 - yoe / 100 + doy;
    era * 146097 + doe - 719468
  }

  /** Milliseconds since 1970-01-01T00:00Z of a UTC civil date and time. */
  function CivilMillis(year: int, month: int, day: int, hour: int, minute: int, second: int): int
    requires 1 <= month <= 12
  {
    ((DaysFromCivil(year, month, day) * 24 + hour) * 60 + minute) * 60000 + second * 1000
  }

  datatype Epoch = J2000 | J2010 {
    /** The epoch's instant, in milliseconds since 1970-01-01T00:00Z. */
    function Millis(): int {
      match this
      case J2000 => 946728000000
      case J2010 => 1262217600000
    }
  }

  /** J2000 is 2000-01-01T12:00Z; J2010 is the day before 2010-01-01T00:00Z,
      that is 2009-12-31T00:00Z. */
  lemma EpochInstants()
    ensures J2000.Millis() == CivilMillis(2000, 1, 1, 12, 0, 0)
    ensures J2010.Millis() == CivilMillis(2010, 1, 1, 0, 0, 0) - MILLIS_PER_DAY
    ensures J2010.Millis() == CivilMillis(2009, 12, 31, 0, 0, 0)
  {
    CivilDays();
  }

  /** The day numbers of the three civil dates the epochs are defined by. */
  lemma CivilDays()
    ensures DaysFromCivil(2000, 1, 1) == 10957
    ensures DaysFromCivil(2010, 1, 1) == 14610
    ensures DaysFromCivil(2009, 12, 31) == 14609
  {
    assert 1999 / 400 == 4 && 399 / 4 == 99 && 399 / 100 == 3 && (153 * 10 + 2) / 5 == 306;
    assert 2009 / 400 == 5 && 9 / 4 == 2 && 9 / 100 == 0;
    assert (153 * 9 + 2) / 5 == 275;
  }

  /** `time.until(when, MILLIS)`: the signed milliseconds from the epoch. */
  function MillisUntil(epoch: Epoch, when: ZonedDateTime): int {
    when.epochMillis - epoch.Millis()
  }

  /** `daysUntil`: the elapsed time in days of 86 400 000 ms. */
  function DaysUntil(epoch: Epoch, when: ZonedDateTime): (days: real)
    ensures days * 86400000.0 == MillisUntil(epoch, when) as real
  {
    MillisUntil(epoch, when) as real / MILLIS_PER_DAY as real
  }

  /** `julianCenturiesUntil`: the elapsed time in Julian centuries of 36 525 days. */
  function JulianCenturiesUntil(epoch: Epoch, when: ZonedDateTime): (centuries: real)
    ensures centuries == DaysUntil(epoch, when) / 36525.0
  {
    MillisUntil(epoch, when) as real / MILLIS_PER_JC
  }

  /** No time has elapsed at the epoch itself, whatever the zone. */
  lemma DaysUntilEpoch(epoch: Epoch, offsetSeconds: int)
    ensures DaysUntil(epoch, ZonedDateTime(epoch.Millis(), offsetSeconds)) == 0.0
    ensures JulianCenturiesUntil(epoch, ZonedDateTime(epoch.Millis(), offsetSeconds)) == 0.0
  {
  }

  /** Elapsed days are additive: `ms` more milliseconds add `ms / 86 400 000` days. */
  lemma DaysUntilAdditive(epoch: Epoch, when: ZonedDateTime, ms: int)
    ensures DaysUntil(epoch, ZonedDateTime(when.epochMillis + ms, when.offsetSeconds))
         == DaysUntil(epoch, when) + ms as real / 86400000.0
  {
  }
}
