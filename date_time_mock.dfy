/**
 The mocked `\DateTime` constructor: how a frozen instant takes over from
 the real clock when a date object is built.

 The frozen instant is a parameter (`frozen`), as is the reading of the real
 clock (`now`) that the parent constructor consults; `p` supplies PHP's own
 date primitives.
 */
module DateTimeMock {

  import opened PhpDate
  import PhpText

  /** What the constructor can throw. */
  datatype Error =
    | ConstructorException   // the parent constructor rejects the string
    | SetTimezoneTypeError   // `setTimeZone(null)`
    | SetTimestampTypeError  // `setTimestamp(false)` under strict types

  /** `isAbsoluteDate`: the input names a year, a month or a day of its own. */
  function IsAbsoluteDate(p: Platform, datetime: string): (r: bool)
    ensures r <==> (p.dateParse(datetime).year.Some?
                    || p.dateParse(datetime).month.Some?
                    || p.dateParse(datetime).day.Some?)
    ensures !r <==> p.dateParse(datetime) == ParsedDate(None, None, None)
  {
    var parsed := p.dateParse(datetime);
    !(parsed.year.None? && parsed.month.None? && parsed.day.None?)
  }

  /** `setMicroseconds`: re-set the object's own hour, minute and second, read
      back through `format` and `(int)`, with the frozen instant's microseconds. */
  function Splice(p: Platform, d: DT, frozen: DT): (r: DT)
    ensures r.wall == d.wall && r.zone == d.zone
    ensures r.micro == frozen.micro
    ensures r.epoch == p.epochOf(d.wall, d.zone)
  {
    WithTime(p, d,
      PhpText.IntCast(Format(d, H)),
      PhpText.IntCast(Format(d, I)),
      PhpText.IntCast(Format(d, S)),
      PhpText.IntCast(Format(frozen, U)))
  }

  /** A null `$datetime` is read as `'now'`. */
  function DatetimeOrNow(datetime: Option<string>): (s: string)
    ensures datetime.None? ==> s == "now"
    ensures datetime.Some? ==> s == datetime.value
  {
    if datetime.None? then "now" else datetime.value
  }

  /** What the constructor does once the parent constructor has produced
      `first` from input `s`. */
  function ResolveParsed(p: Platform, frozen: DT, s: string, timezone: Option<Zone>, first: DT): (r: Result<DT, Error>)
    ensures r.Success? ==> r.value.micro == frozen.micro
  {
    if IsAbsoluteDate(p, s) then
      Success(Splice(p, first, frozen))
    else if first.zone.name != "UTC" then
      match timezone
      case None => Failure(SetTimezoneTypeError)
      case Some(z) =>
        var mocked := p.applyModify(InZone(p, frozen, z), s);
        Success(Splice(p, FromWallString(p, mocked.wall, z), frozen))
    else
      match p.strtotime(s, frozen.epoch)
      case None => Failure(SetTimestampTypeError)
      case Some(t) => Success(Splice(p, AtTimestamp(p, first, t), frozen))
  }

  /** The object `new DateTimeMock($datetime, $timezone)` holds, or what it throws. */
  function Resolve(p: Platform, frozen: DT, now: Instant, datetime: Option<string>, timezone: Option<Zone>): (r: Result<DT, Error>)
    ensures r.Success? ==> r.value.micro == frozen.micro
    ensures p.construct(DatetimeOrNow(datetime), ZoneOrDefault(p, timezone), now).None? <==> r == Failure(ConstructorException)
  {
    var s := DatetimeOrNow(datetime);
    match p.construct(s, ZoneOrDefault(p, timezone), now)
    case None => Failure(ConstructorException)
    case Some(first) => ResolveParsed(p, frozen, s, timezone, first)
  }

  class DateTimeMock {
    var value: DT

    /** The object as the parent constructor left it. */
    constructor FromParent(d: DT)
      ensures value == d
    {
      value := d;
    }

    method SetTimestamp(p: Platform, t: int)
      modifies this
      ensures value == AtTimestamp(p, old(value), t)
      ensures value.epoch == t && value.zone == old(value.zone) && value.wall == p.localOf(t, value.zone)
    {
      value := AtTimestamp(p, value, t);
    }

    method SetTime(p: Platform, h: int, i: int, s: int, u: int)
      modifies this
      ensures value == WithTime(p, old(value), h, i, s, u)
    {
      value := WithTime(p, value, h, i, s, u);
    }

    /** The second parent constructor call, on a string of whole seconds. */
    method ReconstructFromWall(p: Platform, w: Wall, z: Zone)
      modifies this
      ensures value == FromWallString(p, w, z)
      ensures value.wall == w && value.zone == z && value.micro == 0
    {
      value := FromWallString(p, w, z);
    }

    method SetMicroseconds(p: Platform, frozen: DT)
      modifies this
      ensures value == Splice(p, old(value), frozen)
      ensures value.wall == old(value.wall) && value.zone == old(value.zone)
      ensures value.micro == frozen.micro
      ensures value.epoch == p.epochOf(old(value.wall), old(value.zone))
    {
      SetTime(p,
        PhpText.IntCast(Format(value, H)),
        PhpText.IntCast(Format(value, I)),
        PhpText.IntCast(Format(value, S)),
        PhpText.IntCast(Format(frozen, U)));
    }

    /** `new DateTimeMock($datetime, $timezone)`. */
    static method New(p: Platform, frozen: DT, now: Instant, datetime: Option<string>, timezone: Option<Zone>)
      returns (r: Result<DateTimeMock, Error>)
      ensures r.Failure? <==> Resolve(p, frozen, now, datetime, timezone).Failure?
      ensures r.Failure? ==> r.error == Resolve(p, frozen, now, datetime, timezone).error
      ensures r.Success? ==> fresh(r.value) && r.value.value == Resolve(p, frozen, now, datetime, timezone).value
    {
      var s := DatetimeOrNow(datetime);
      var parsed := p.construct(s, ZoneOrDefault(p, timezone), now);
      if parsed.None? {
        return Failure(ConstructorException);
      }
      var self := new DateTimeMock.FromParent(parsed.value);
      if IsAbsoluteDate(p, s) {
        self.SetMicroseconds(p, frozen);
        return Success(self);
      }
      if self.value.zone.name != "UTC" {
        if timezone.None? {
          return Failure(SetTimezoneTypeError);
        }
        // getFrozenDateTime() hands out a copy, so this local is private
        var mocked := frozen;
        mocked := InZone(p, mocked, timezone.value);
        mocked := p.applyModify(mocked, s);
        self.ReconstructFromWall(p, mocked.wall, timezone.value);
      } else {
        var t := p.strtotime(s, frozen.epoch);
        if t.None? {
          return Failure(SetTimestampTypeError);
        }
        self.SetTimestamp(p, t.value);
      }
      self.SetMicroseconds(p, frozen);
      return Success(self);
    }
  }

  // ---------------------------------------------------------------------
  // Properties of the constructor

  /** A null input behaves exactly as `'now'`. */
  lemma NullMeansNow(p: Platform, frozen: DT, now: Instant, timezone: Option<Zone>)
    ensures Resolve(p, frozen, now, None, timezone) == Resolve(p, frozen, now, Some("now"), timezone)
  {
  }

  /** Absolute input: the date and time of day are the parent constructor's;
      the frozen instant contributes only its microseconds. */
  lemma AbsoluteKeepsParsedWallClock(p: Platform, frozen: DT, now: Instant, s: string, timezone: Option<Zone>, first: DT)
    requires IsAbsoluteDate(p, s)
    requires p.construct(s, ZoneOrDefault(p, timezone), now) == Some(first)
    ensures Resolve(p, frozen, now, Some(s), timezone) ==
      Success(DT(p.epochOf(first.wall, first.zone), first.wall, frozen.micro, first.zone))
  {
  }

  /** Relative input in a zone named UTC: the result is the instant that
      `strtotime` computes from the frozen timestamp, shown in UTC. */
  lemma UtcAnchorsOnFrozenTimestamp(p: Platform, frozen: DT, now: Instant, s: string, timezone: Option<Zone>, first: DT)
    requires !IsAbsoluteDate(p, s)
    requires p.construct(s, ZoneOrDefault(p, timezone), now) == Some(first)
    requires first.zone.name == "UTC"
    ensures p.strtotime(s, frozen.epoch).None? ==> Resolve(p, frozen, now, Some(s), timezone) == Failure(SetTimestampTypeError)
    ensures p.strtotime(s, frozen.epoch).Some? ==>
      var w := p.localOf(p.strtotime(s, frozen.epoch).value, Zone("UTC"));
      Resolve(p, frozen, now, Some(s), timezone) ==
        Success(DT(p.epochOf(w, Zone("UTC")), w, frozen.micro, Zone("UTC")))
  {
    assert first.zone == Zone("UTC");
  }

  /** Where local time and timestamps agree (as in UTC), the UTC path's result
      has exactly the timestamp `strtotime` computed from the frozen one. */
  lemma UtcTimestampIsStrtotime(p: Platform, frozen: DT, now: Instant, s: string, timezone: Option<Zone>, first: DT, t: int)
    requires !IsAbsoluteDate(p, s)
    requires p.construct(s, ZoneOrDefault(p, timezone), now) == Some(first)
    requires first.zone.name == "UTC"
    requires p.strtotime(s, frozen.epoch) == Some(t)
    requires p.epochOf(p.localOf(t, Zone("UTC")), Zone("UTC")) == t
    ensures Resolve(p, frozen, now, Some(s), timezone).Success?
    ensures Resolve(p, frozen, now, Some(s), timezone).value.epoch == t
  {
    UtcAnchorsOnFrozenTimestamp(p, frozen, now, s, timezone, first);
  }

  /** Relative input in any other zone: the frozen instant is moved into the
      target zone, the expression is applied there, and the wall clock that
      results becomes the object, with the frozen microseconds. */
  lemma OtherZoneModifiesFrozenInTargetZone(p: Platform, frozen: DT, now: Instant, s: string, z: Zone, first: DT)
    requires !IsAbsoluteDate(p, s)
    requires p.construct(s, z, now) == Some(first)
    requires first.zone.name != "UTC"
    ensures Resolve(p, frozen, now, Some(s), Some(z)) ==
      var w := p.applyModify(InZone(p, frozen, z), s).wall;
      Success(DT(p.epochOf(w, z), w, frozen.micro, z))
  {
  }

  /** Relative input, no zone argument, and a default zone other than UTC:
      `setTimeZone` receives null and throws. */
  lemma NullTimezoneOutsideUtcThrows(p: Platform, frozen: DT, now: Instant, s: string, first: DT)
    requires !IsAbsoluteDate(p, s)
    requires p.construct(s, p.defaultZone, now) == Some(first)
    requires first.zone.name != "UTC"
    ensures Resolve(p, frozen, now, Some(s), None) == Failure(SetTimezoneTypeError)
  {
  }

  /** On both relative paths the object the first parent call produced is
      overwritten: only the name of its zone survives, to pick the branch. */
  lemma RelativeUsesOnlyParsedZone(p: Platform, frozen: DT, s: string, timezone: Option<Zone>, first1: DT, first2: DT)
    requires !IsAbsoluteDate(p, s)
    requires first1.zone == first2.zone
    ensures ResolveParsed(p, frozen, s, timezone, first1) == ResolveParsed(p, frozen, s, timezone, first2)
  {
  }

  /** Hence the real clock does not reach the result of a relative input, as
      long as it does not change the zone the parent constructor reports. */
  lemma RealClockNeverLeaks(p: Platform, frozen: DT, now1: Instant, now2: Instant, s: string, timezone: Option<Zone>)
    requires !IsAbsoluteDate(p, s)
    requires p.construct(s, ZoneOrDefault(p, timezone), now1).Some?
    requires p.construct(s, ZoneOrDefault(p, timezone), now2).Some?
    requires p.construct(s, ZoneOrDefault(p, timezone), now1).value.zone ==
             p.construct(s, ZoneOrDefault(p, timezone), now2).value.zone
    ensures Resolve(p, frozen, now1, Some(s), timezone) == Resolve(p, frozen, now2, Some(s), timezone)
  {
    RelativeUsesOnlyParsedZone(p, frozen, s, timezone,
      p.construct(s, ZoneOrDefault(p, timezone), now1).value,
      p.construct(s, ZoneOrDefault(p, timezone), now2).value);
  }

  /** The branch follows the zone of the constructed object, not the argument:
      once that zone is UTC, the zone argument no longer matters. */
  lemma UtcBranchIgnoresTimezoneArgument(p: Platform, frozen: DT, s: string, tz1: Option<Zone>, tz2: Option<Zone>, first: DT)
    requires !IsAbsoluteDate(p, s)
    requires first.zone.name == "UTC"
    ensures ResolveParsed(p, frozen, s, tz1, first) == ResolveParsed(p, frozen, s, tz2, first)
  {
  }

  /** `'now'` read in UTC gives back the frozen instant to the microsecond. */
  lemma NowRoundTrip(p: Platform, frozen: DT, now: Instant, first: DT)
    requires p.dateParse("now") == ParsedDate(None, None, None)
    requires p.construct("now", p.defaultZone, now) == Some(first)
    requires first.zone == Zone("UTC")
    requires p.strtotime("now", frozen.epoch) == Some(frozen.epoch)
    requires p.epochOf(p.localOf(frozen.epoch, Zone("UTC")), Zone("UTC")) == frozen.epoch
    ensures Resolve(p, frozen, now, None, None).Success?
    ensures Resolve(p, frozen, now, None, None).value.epoch == frozen.epoch
    ensures Resolve(p, frozen, now, None, None).value.micro == frozen.micro
  {
    NullMeansNow(p, frozen, now, None);
    UtcTimestampIsStrtotime(p, frozen, now, "now", None, first, frozen.epoch);
  }

  // ---------------------------------------------------------------------
  // The constructor's documented cases, with the date primitives fixed only
  // where each case needs them

  /** An absolute time in Europe/Madrid keeps its 15:00:00, whatever is frozen. */
  lemma MadridAbsoluteKeepsItsTime(p: Platform, frozen: DT, now: Instant, e: int, m: Micro)
    requires p.dateParse("2022-03-08 15:00:00") == ParsedDate(Some(2022), Some(3), Some(8))
    requires p.construct("2022-03-08 15:00:00", Zone("Europe/Madrid"), now) ==
             Some(DT(e, Wall(2022, 3, 8, 15, 0, 0), m, Zone("Europe/Madrid")))
    ensures Resolve(p, frozen, now, Some("2022-03-08 15:00:00"), Some(Zone("Europe/Madrid"))).Success?
    ensures var d := Resolve(p, frozen, now, Some("2022-03-08 15:00:00"), Some(Zone("Europe/Madrid"))).value;
      d.wall == Wall(2022, 3, 8, 15, 0, 0) && d.zone == Zone("Europe/Madrid") && d.micro == frozen.micro
  {
  }

  /** Frozen at 2022-03-08 12:00:00 UTC, `'+1 day'` in Europe/Madrid is
      2022-03-09 13:00:00: the day is added after moving to Madrid time. */
  lemma MadridPlusOneDay(p: Platform, now: Instant, e: int, m: Micro)
    requires p.dateParse("+1 day") == ParsedDate(None, None, None)
    requires p.construct("+1 day", Zone("Europe/Madrid"), now).Some?
    requires p.construct("+1 day", Zone("Europe/Madrid"), now).value.zone == Zone("Europe/Madrid")
    requires p.localOf(e, Zone("Europe/Madrid")) == Wall(2022, 3, 8, 13, 0, 0)
    requires p.applyModify(DT(e, Wall(2022, 3, 8, 13, 0, 0), m, Zone("Europe/Madrid")), "+1 day").wall == Wall(2022, 3, 9, 13, 0, 0)
    ensures Resolve(p, DT(e, Wall(2022, 3, 8, 12, 0, 0), m, Zone("UTC")), now, Some("+1 day"), Some(Zone("Europe/Madrid"))).Success?
    ensures var d := Resolve(p, DT(e, Wall(2022, 3, 8, 12, 0, 0), m, Zone("UTC")), now, Some("+1 day"), Some(Zone("Europe/Madrid"))).value;
      d.wall == Wall(2022, 3, 9, 13, 0, 0) && d.zone == Zone("Europe/Madrid") && d.micro == m
  {
  }

  /** Frozen at 2016-03-08 12:00:00 in a UTC default zone, `'last day of this
      month 23:59:59'` is 2016-03-31 23:59:59: `strtotime` runs from the frozen
      timestamp. */
  lemma UtcLastDayOfMonth(p: Platform, now: Instant, first: DT, e: int, t: int)
    requires p.dateParse("last day of this month 23:59:59") == ParsedDate(None, None, None)
    requires p.construct("last day of this month 23:59:59", p.defaultZone, now) == Some(first)
    requires first.zone == Zone("UTC")
    requires p.strtotime("last day of this month 23:59:59", e) == Some(t)
    requires p.localOf(t, Zone("UTC")) == Wall(2016, 3, 31, 23, 59, 59)
    ensures Resolve(p, DT(e, Wall(2016, 3, 8, 12, 0, 0), 0, Zone("UTC")), now, Some("last day of this month 23:59:59"), None).Success?
    ensures var d := Resolve(p, DT(e, Wall(2016, 3, 8, 12, 0, 0), 0, Zone("UTC")), now, Some("last day of this month 23:59:59"), None).value;
      d.wall == Wall(2016, 3, 31, 23, 59, 59) && d.zone == Zone("UTC") && d.micro == 0
  {
  }
}
