# DateTimeMock: the frozen-clock `\DateTime` constructor

ClockMock lets a test freeze "now". While a frozen instant is set, every
`new \DateTime($datetime, $timezone)` is served by `DateTimeMock`. Its
constructor decides how the frozen instant replaces the real clock:

- a null `$datetime` means `'now'`;
- the parent constructor runs first, against the real clock;
- **absolute** input: `date_parse` reports a year, a month or a day. The
  parent's result is kept.
- **relative** input, and the constructed object's zone is named `UTC`: the
  timestamp becomes `strtotime($datetime, <frozen timestamp>)`.
- **relative** input in any other zone: a copy of the frozen instant is moved
  into `$timezone` and `modify($datetime)` is applied to it. Its
  `Y-m-d H:i:s` is then read back by the parent constructor in `$timezone`.
- on every path, `setMicroseconds` ends the work. It re-sets the object's
  own hour, minute and second, read through `format` and `(int)`, with the
  frozen instant's microseconds.

The model has three modules:

- `PhpText`: the zero-padded field rendering of `format('H' | 'i' | 's' | 'u')`
  and PHP's `(int)` cast of a string. `setMicroseconds` reads the time of
  day through them.
- `PhpDate`: the state of a `\DateTime` object as a value `DT`. It holds the
  Unix timestamp, the local calendar fields `Wall` in the object's zone, the
  microseconds and the zone. Keeping the timestamp beside the local fields
  lets the model tell apart the two instants of a DST fold, which share a
  wall clock.
  - PHP's foreign primitives are the function-valued fields of a `Platform`
    and are left unspecified: `date_parse`, the parent constructor,
    `strtotime` and `modify`, plus the zone database. The zone database gives
    the local time of a timestamp (`localOf`) and the timestamp of a local
    time (`epochOf`).
  - The object methods the constructor calls are fixed functions written in
    terms of those primitives: `setTimezone` (`InZone`), `setTimestamp`
    (`AtTimestamp`), `setTime` (`WithTime`), the re-read of a
    `Y-m-d H:i:s` string (`FromWallString`) and `format` (`Format`).
    `setTime` and the re-read work out the timestamp again from the local
    fields, as PHP does.
- `DateTimeMock`: the classifier `IsAbsoluteDate`, the splice `Splice`, the
  specification `Resolve` of what the constructor yields or throws, and the
  class `DateTimeMock`. The class has a mutable `value` field, and its
  static method `New` performs the constructor's steps in order.

Most properties below hold for every behaviour of the `Platform`
primitives. `UtcTimestampIsStrtotime`, `NowRoundTrip` and the three lemmas
for the documented cases hold for every platform that meets their
`requires`. Those clauses fix the primitives only at the points each
statement needs.

The frozen instant and the real-clock reading are parameters. The frozen
instant comes from `ClockMock::getFrozenDateTime`, which is not part of this
model.

The constructor can throw in three modelled ways:

- the parent constructor rejects the string;
- `setTimeZone(null)`: a relative input, no `$timezone` argument, and a
  default zone that is not UTC;
- `setTimestamp(false)`: `strtotime` fails. The file declares strict types,
  so `false` is not accepted as an `int`.

`setMicroseconds` runs on the absolute path too. An absolute input therefore
gets the frozen instant's microseconds, and any fraction it encodes
(`'@1619000631.5'`) is overwritten. `Resolve`'s contract states this for every
successful result.

## Model

| member | source | states |
|---|---|---|
| `PhpText.CastOfZeroPadded` | src/DateTimeMock/DateTimeMock.php:41-45 | `(int)` of a field's zero-padded rendering gives back the field's value, for any value that fits the width: the hour, minute and second read back through `format('H')`, `format('i')` and `format('s')`, and the microseconds through `format('u')`, are the object's own |
| `PhpText.IntCast` | src/DateTimeMock/DateTimeMock.php:42-45 | `(int)` of a string made only of digits is the number those digits denote |
| `PhpDate.Format` | src/DateTimeMock/DateTimeMock.php:42-45 | `format('H')`, `format('i')` and `format('s')` print two digits and `format('u')` prints six; `(int)` of each gives back the object's hour, minute, second or microseconds |
| `PhpDate.InZone` | src/DateTimeMock/DateTimeMock.php:29 | `setTimeZone($z)` keeps the timestamp and the microseconds, puts the object in zone `z`, and shows the local time of the same timestamp there |
| `PhpDate.ZoneOrDefault` | src/DateTimeMock/DateTimeMock.php:20 | the parent constructor reads the input in the `$timezone` passed, or in the default zone when it is null |
| `DateTimeMock.DatetimeOrNow` | src/DateTimeMock/DateTimeMock.php:18 | a null `$datetime` becomes `'now'`; any other input is kept as it is |
| `PhpText.ZeroPaddedValue` | src/DateTimeMock/DateTimeMock.php:42-45 | the digits `format` prints for a field denote the field's value when it fits the width |
| `DateTimeMock.IsAbsoluteDate` | src/DateTimeMock/DateTimeMock.php:49-57 | true exactly when at least one of `year`, `month`, `day` from `date_parse` is not `false`; false exactly when all three are `false` |
| `DateTimeMock.Splice` | src/DateTimeMock/DateTimeMock.php:39-47 | setting the time again leaves the date, the hour, minute and second, and the zone as they were. The microseconds become the frozen instant's, and the timestamp is worked out again from the unchanged local fields |
| `DateTimeMock.DateTimeMock.SetMicroseconds` | src/DateTimeMock/DateTimeMock.php:39-47 | the object's new state is the splice of its old state: same wall clock and zone, frozen microseconds, and the timestamp of that wall clock in that zone |
| `DateTimeMock.DateTimeMock.FromParent` | src/DateTimeMock/DateTimeMock.php:20 | the object starts as the parent constructor's result |
| `DateTimeMock.DateTimeMock.SetTimestamp` | src/DateTimeMock/DateTimeMock.php:33 | the object's timestamp becomes exactly the given one, so `getTimestamp` gives it back; the zone stays, and the local fields become those of the timestamp in that zone |
| `DateTimeMock.DateTimeMock.SetTime` | src/DateTimeMock/DateTimeMock.php:41-46 | the new state is `setTime` applied to the old one |
| `DateTimeMock.DateTimeMock.ReconstructFromWall` | src/DateTimeMock/DateTimeMock.php:31 | re-reading the `Y-m-d H:i:s` string in `$timezone` gives those wall-clock fields, that zone, zero microseconds, and the timestamp of that wall clock in that zone |
| `DateTimeMock.ResolveParsed` | src/DateTimeMock/DateTimeMock.php:22-36 | after the parent constructor has run, every successful path ends with the frozen instant's microseconds |
| `DateTimeMock.Resolve` | src/DateTimeMock/DateTimeMock.php:16-37 | every object the constructor yields carries the frozen instant's microseconds, and it throws `ConstructorException` exactly when the parent constructor rejects the input |
| `DateTimeMock.DateTimeMock.New` | src/DateTimeMock/DateTimeMock.php:16-37 | the step-by-step constructor yields a fresh object whose state is `Resolve`'s result, or throws exactly the error `Resolve` names |
| `DateTimeMock.NullMeansNow` | src/DateTimeMock/DateTimeMock.php:16-18 | a null `$datetime` gives the same outcome as `'now'` |
| `DateTimeMock.AbsoluteKeepsParsedWallClock` | src/DateTimeMock/DateTimeMock.php:20-25 | absolute input yields the parent constructor's date, time of day and zone, with the timestamp of that wall clock; the frozen instant contributes only its microseconds |
| `DateTimeMock.UtcAnchorsOnFrozenTimestamp` | src/DateTimeMock/DateTimeMock.php:32-34 | relative input in a zone named UTC yields the UTC local time of `strtotime(s, frozen timestamp)`, with the frozen microseconds, or throws when `strtotime` fails. The frozen timestamp is the object's own, not one derived from its wall clock |
| `DateTimeMock.UtcTimestampIsStrtotime` | src/DateTimeMock/DateTimeMock.php:33 | where UTC's local time and timestamps agree, the result's timestamp is exactly `strtotime(s, frozen timestamp)` |
| `DateTimeMock.OtherZoneModifiesFrozenInTargetZone` | src/DateTimeMock/DateTimeMock.php:27-31 | relative input in a zone not named UTC yields this wall clock, in `$timezone`, with the frozen microseconds: move the frozen instant to `$timezone` by its timestamp, then apply `modify(s)` |
| `DateTimeMock.NullTimezoneOutsideUtcThrows` | src/DateTimeMock/DateTimeMock.php:27-29 | relative input with no zone argument, when the constructed object is not in UTC, throws the `setTimeZone(null)` type error |
| `DateTimeMock.RelativeUsesOnlyParsedZone` | src/DateTimeMock/DateTimeMock.php:20-33 | for relative input, two first-constructed objects with the same zone lead to the same outcome: nothing but their zone is used |
| `DateTimeMock.RealClockNeverLeaks` | src/DateTimeMock/DateTimeMock.php:20-33 | for relative input, two real-clock readings that yield the same zone from the parent constructor give the same outcome |
| `DateTimeMock.UtcBranchIgnoresTimezoneArgument` | src/DateTimeMock/DateTimeMock.php:27 | the branch is chosen by the constructed object's zone: once that zone is UTC, the `$timezone` argument does not change the outcome |
| `DateTimeMock.NowRoundTrip` | src/DateTimeMock/DateTimeMock.php:16-36 | `new DateTime()` in a UTC default zone has the frozen timestamp and the frozen microseconds |
| `DateTimeMock.MadridAbsoluteKeepsItsTime` | tests/ClockMockTest.php:48-54 | `'2022-03-08 15:00:00'` in Europe/Madrid stays 15:00:00 whatever is frozen |
| `DateTimeMock.MadridPlusOneDay` | tests/ClockMockTest.php:178-184 | frozen at 2022-03-08 12:00:00 UTC, `'+1 day'` in Europe/Madrid is 2022-03-09 13:00:00 |
| `DateTimeMock.UtcLastDayOfMonth` | tests/ClockMockTest.php:194-200 | frozen at 2016-03-08 12:00:00 UTC, `'last day of this month 23:59:59'` is 2016-03-31 23:59:59 |

## Left out

- PHP's date grammar (`date_parse`, `strtotime`, `DateTime::modify`, the parent constructor's parser) and the zone database (offsets, DST): foreign library code, modelled as uninterpreted `Platform` functions.
- `DateTimeMock.UtcTimestampIsStrtotime`: `setMicroseconds` calls `setTime`, which works out the timestamp again from the local fields. So the property needs the zone database to map UTC local time back to the same timestamp. The model states this as a precondition and does not assume it.
- `modify` failing on a malformed string: `modify` is modelled as total. The constructor ignores its result, and the same string has already passed the parent constructor.
- `setTime` with an argument outside its field's range carries into the next field; that is an uninterpreted `Platform` function. After `setTime`, PHP re-derives the local fields from the timestamp, which can move a wall time that falls in a DST gap; the model keeps the given fields.
- Re-reading `format('Y-m-d H:i:s')`: the model assumes the string reads back as the same wall-clock fields. Years outside four digits, which would format differently, are not modelled.
- `(int)` cast: leading whitespace and exponent forms (`"1e3"`) are not modelled; the cast is applied only to zero-padded digit strings here.
- The `ClockMock` frozen-instant store (`freeze`, `reset`, `getFrozenDateTime`) is not part of this model. The frozen instant is a parameter. The non-UTC branch relies on `getFrozenDateTime` returning a fresh copy, and that cannot be checked here.
- The interception layer and the adapters for `date`, `gmdate`, `idate`, `getdate`, `localtime`, `microtime`, `time` and `date_create`, and the `DateTimeImmutable` mock, are not part of this model.
- There is no general format engine. `'Y-m-d H:i:s'` is the `Wall` record. `'H'`, `'i'`, `'s'` and `'u'` are rendered as zero-padded digit strings of one field each, and `PhpText.IntCast` reads them back.
