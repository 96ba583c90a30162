/**
 * `DateHandler`: time-window tests in the default zone Asia/Shanghai.
 *
 * A datetime is its wall-clock reading, counted in microseconds on a
 * uniform local time line, and its zone, if any (naive datetimes have none).
 * A zone is a name and a fixed offset from UTC in seconds; Asia/Shanghai
 * has kept +08:00 without daylight saving since 1991. The clock read is the
 * parameter `now`, a UTC instant in microseconds, and the result of
 * `dateutil.parser.isoparse` is the parameter `parsed` (`None` when the text
 * is not ISO 8601).
 */
module DateHandling {
  import opened Wrappers

  datatype Zone = Zone(name: string, offset: int)
  datatype DateTime = DateTime(wall: int, zone: Option<Zone>)

  /** The `ValueError` that `isoparse` raises for a text it cannot read. */
  datatype ParseError = NotIsoFormat

  const Micros := 1000000
  const DayMicros := 86400 * Micros

  /** `DEFAULT_TZ`. */
  const Shanghai := Zone("Asia/Shanghai", 8 * 3600)

  predicate Aware(dt: DateTime) {
    dt.zone.Some?
  }

  /** The UTC instant of an aware datetime, in microseconds. */
  function Instant(dt: DateTime): int
    requires Aware(dt)
  {
    dt.wall - dt.zone.value.offset * Micros
  }

  /** Comparing two aware datetimes compares their instants. */
  predicate After(a: DateTime, b: DateTime)
    requires Aware(a) && Aware(b)
  {
    Instant(a) > Instant(b)
  }

  /** `now()`: the current instant read in the default zone. */
  function Now(now: int): (r: DateTime)
    ensures r.zone == Some(Shanghai) && Instant(r) == now
  {
    DateTime(now + Shanghai.offset * Micros, Some(Shanghai))
  }

  /** `get_recent_time(days)`: `days` days before the current time, still in the default zone. */
  function GetRecentTime(days: int, now: int): (r: DateTime)
    ensures r.zone == Some(Shanghai) && Instant(r) == now - days * DayMicros
  {
    var n := Now(now);
    DateTime(n.wall - days * DayMicros, n.zone)
  }

  /** `to_aware`: a naive datetime gets the default zone, read at the same wall-clock time; an aware one is returned as is. */
  function ToAware(dt: DateTime): (r: DateTime)
    ensures Aware(r) && r.wall == dt.wall
    ensures Aware(dt) ==> r == dt
    ensures !Aware(dt) ==> r.zone == Some(Shanghai)
  {
    if dt.zone.None? then DateTime(dt.wall, Some(Shanghai)) else dt
  }

  /** `to_naive`: the zone is dropped and the wall-clock reading kept. */
  function ToNaive(dt: DateTime): (r: DateTime)
    ensures !Aware(r) && r.wall == dt.wall
  {
    DateTime(dt.wall, None)
  }

  /** `parse(date_str)`: the parsed datetime, made aware in the default zone; a text that does not parse is an error. */
  function Parse(parsed: Option<DateTime>): (r: Result<DateTime, ParseError>)
    ensures parsed.None? <==> r.Err?
    ensures r.Ok? ==> Aware(r.value) && r.value.wall == parsed.value.wall
    ensures r.Ok? && Aware(parsed.value) ==> r.value == parsed.value
  {
    match parsed
    case None => Err(NotIsoFormat)
    case Some(dt) => Ok(ToAware(dt))
  }

  /** `is_after_recent_time(target_time, days)`. */
  function IsAfterRecentTime(target: DateTime, days: int, now: int): (r: bool)
    ensures r <==> Instant(ToAware(target)) > now - days * DayMicros
  {
    After(ToAware(target), GetRecentTime(days, now))
  }

  /** `is_within_days(date_str, days)`. */
  function IsWithinDays(parsed: Option<DateTime>, days: int, now: int): (r: Result<bool, ParseError>)
    ensures r.Err? <==> parsed.None?
    ensures r.Ok? ==> (r.value <==> Instant(ToAware(parsed.value)) > now - days * DayMicros)
  {
    match Parse(parsed)
    case Err(e) => Err(e)
    case Ok(target) => Ok(After(target, GetRecentTime(days, now)))
  }

  /** `is_after_recent_time_str(date_str, days)`. */
  function IsAfterRecentTimeStr(parsed: Option<DateTime>, days: int, now: int): (r: Result<bool, ParseError>)
    ensures r.Err? <==> parsed.None?
  {
    match Parse(parsed)
    case Err(e) => Err(e)
    case Ok(target) => Ok(IsAfterRecentTime(target, days, now))
  }

  /** The cutoff test is strict: a time exactly `days` days ago is not recent. */
  lemma CutoffIsNotRecent(days: int, now: int)
    ensures !IsAfterRecentTime(GetRecentTime(days, now), days, now)
    ensures IsAfterRecentTime(DateTime(GetRecentTime(days, now).wall + 1, Some(Shanghai)), days, now)
  {
  }

  /** `to_aware` is idempotent. */
  lemma ToAwareIdempotent(dt: DateTime)
    ensures ToAware(ToAware(dt)) == ToAware(dt)
  {
  }

  /** A naive datetime is read in the default zone, so its instant lies eight hours before its wall-clock reading. */
  lemma NaiveReadInShanghai(dt: DateTime)
    requires !Aware(dt)
    ensures Instant(ToAware(dt)) == dt.wall - 8 * 3600 * Micros
  {
  }

  /** The two string tests agree on every input, the failing parse included. */
  lemma WithinDaysAgrees(parsed: Option<DateTime>, days: int, now: int)
    ensures IsWithinDays(parsed, days, now) == IsAfterRecentTimeStr(parsed, days, now)
  {
    if parsed.Some? {
      ToAwareIdempotent(parsed.value);
    }
  }

  /** Dropping and re-attaching the zone restores a datetime of the default zone, and no other: equal fields. */
  lemma NaiveRoundTrip(dt: DateTime)
    ensures ToAware(ToNaive(dt)) == dt <==> dt.zone == Some(Shanghai)
  {
  }

  /**
   * Python's `==` on aware datetimes compares instants: the round trip keeps
   * the instant exactly when the zone's offset is the default +08:00,
   * whatever the zone is called.
   */
  lemma NaiveRoundTripInstant(dt: DateTime)
    requires Aware(dt)
    ensures Instant(ToAware(ToNaive(dt))) == Instant(dt) <==> dt.zone.value.offset == Shanghai.offset
  {
    assert Instant(ToAware(ToNaive(dt))) - Instant(dt) == (dt.zone.value.offset - Shanghai.offset) * Micros;
  }
}
