/**
 The part of PHP's date extension that `DateTimeMock` builds on, as values.

 A `\DateTime` object keeps its Unix timestamp next to its local calendar
 fields, its microseconds and its time zone (`DT`). The date grammar
 (`date_parse`, `strtotime`, `DateTime::modify`, the parent constructor) and
 the zone database (the local time of a timestamp, the timestamp of a local
 time) are foreign code: they are the function-valued fields of a
 `Platform`, left unspecified. The object methods the constructor calls
 (`setTimezone`, `setTimestamp`, `setTime`, `format`) are functions here,
 written in terms of those primitives.
 */
module PhpDate {

  import PhpText

  datatype Option<+T> = None | Some(value: T)

  datatype Result<+R, +E> = Success(value: R) | Failure(error: E)

  type Hour = h: int | 0 <= h < 24
  type Minute = i: int | 0 <= i < 60
  type Second = s: int | 0 <= s < 60
  type Micro = u: int | 0 <= u < 1000000

  /** A time zone, known here by its name (`DateTimeZone::getName`). */
  datatype Zone = Zone(name: string)

  /** The local calendar fields that `format('Y-m-d H:i:s')` shows. */
  datatype Wall = Wall(year: int, month: int, day: int, hour: Hour, minute: Minute, second: Second)

  /** The state of a `\DateTime` object: its timestamp, its local fields in
      its zone and its microseconds. Two instants of a DST fold share a wall
      clock and differ in `epoch`. */
  datatype DT = DT(epoch: int, wall: Wall, micro: Micro, zone: Zone)

  /** A reading of the real system clock. */
  datatype Instant = Instant(seconds: int, micro: Micro)

  /** The `year`, `month` and `day` entries of `date_parse`; `None` is `false`. */
  datatype ParsedDate = ParsedDate(year: Option<int>, month: Option<int>, day: Option<int>)

  /** The foreign primitives. */
  datatype Platform = Platform(
    // date_parse($s)
    dateParse: string -> ParsedDate,
    // new \DateTime($s, $zone) read against the real clock; None when it throws
    construct: (string, Zone, Instant) -> Option<DT>,
    // strtotime($s, $base); None when it returns false
    strtotime: (string, int) -> Option<int>,
    // $d->modify($s)
    applyModify: (DT, string) -> DT,
    // the local calendar fields of a Unix timestamp in a zone
    localOf: (int, Zone) -> Wall,
    // the Unix timestamp of local calendar fields in a zone
    epochOf: (Wall, Zone) -> int,
    // $d->setTime($h, $i, $s, $u) when some argument is outside its field's range
    setTimeCarry: (DT, int, int, int, int) -> DT,
    // date_default_timezone_get()
    defaultZone: Zone)

  /** The zone a constructor uses: the one passed, else the default zone. */
  function ZoneOrDefault(p: Platform, timezone: Option<Zone>): (z: Zone)
    ensures timezone.Some? ==> z == timezone.value
    ensures timezone.None? ==> z == p.defaultZone
  {
    if timezone.Some? then timezone.value else p.defaultZone
  }

  /** `$d->setTimezone($z)`: the same instant and microseconds, seen in zone `z`. */
  function InZone(p: Platform, d: DT, z: Zone): (r: DT)
    ensures r.epoch == d.epoch && r.micro == d.micro && r.zone == z
    ensures r.wall == p.localOf(d.epoch, z)
  {
    DT(d.epoch, p.localOf(d.epoch, z), d.micro, z)
  }

  /** `$d->setTimestamp($t)`: the object moves to instant `t` in its own zone;
      the fraction of a second is reset. */
  function AtTimestamp(p: Platform, d: DT, t: int): (r: DT)
    ensures r.epoch == t && r.zone == d.zone && r.micro == 0
    ensures r.wall == p.localOf(t, d.zone)
  {
    DT(t, p.localOf(t, d.zone), 0, d.zone)
  }

  /** `$d->setTime($h, $i, $s, $u)`: same date and zone, the given time of day;
      the timestamp is worked out again from the new local fields. */
  function WithTime(p: Platform, d: DT, h: int, i: int, s: int, u: int): (r: DT)
    ensures 0 <= h < 24 && 0 <= i < 60 && 0 <= s < 60 && 0 <= u < 1000000 ==>
      && r.wall == Wall(d.wall.year, d.wall.month, d.wall.day, h, i, s)
      && r.micro == u && r.zone == d.zone
      && r.epoch == p.epochOf(r.wall, d.zone)
  {
    if 0 <= h < 24 && 0 <= i < 60 && 0 <= s < 60 && 0 <= u < 1000000 then
      var w := Wall(d.wall.year, d.wall.month, d.wall.day, h, i, s);
      DT(p.epochOf(w, d.zone), w, u, d.zone)
    else
      p.setTimeCarry(d, h, i, s, u)
  }

  /** `new \DateTime($d->format('Y-m-d H:i:s'), $z)`: a string with whole
      seconds and no zone, read back in zone `z`. */
  function FromWallString(p: Platform, w: Wall, z: Zone): (r: DT)
    ensures r.wall == w && r.zone == z && r.micro == 0
    ensures r.epoch == p.epochOf(w, z)
  {
    DT(p.epochOf(w, z), w, 0, z)
  }

  /** The format characters used one at a time. */
  datatype FieldFormat = H | I | S | U

  /** `$d->format(f)` for a single format character: the field, zero-padded;
      `(int)` of it is the field's value again. */
  function Format(d: DT, f: FieldFormat): (r: string)
    ensures PhpText.AllDigits(r) && |r| == (if f == U then 6 else 2)
    ensures f == H ==> PhpText.IntCast(r) == d.wall.hour
    ensures f == I ==> PhpText.IntCast(r) == d.wall.minute
    ensures f == S ==> PhpText.IntCast(r) == d.wall.second
    ensures f == U ==> PhpText.IntCast(r) == d.micro
  {
    match f
    case H => PhpText.CastOfZeroPadded(d.wall.hour, 2); PhpText.ZeroPadded(d.wall.hour, 2)
    case I => PhpText.CastOfZeroPadded(d.wall.minute, 2); PhpText.ZeroPadded(d.wall.minute, 2)
    case S => PhpText.CastOfZeroPadded(d.wall.second, 2); PhpText.ZeroPadded(d.wall.second, 2)
    case U => PhpText.CastOfZeroPadded(d.micro, 6); PhpText.ZeroPadded(d.micro, 6)
  }
}
