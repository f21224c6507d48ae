# OpenSky client core in Dafny

A model of the request-building core of the OpenSky Network REST client
(`OpenSkyClient`), together with the pieces it rests on: the Unix-time codec
(`DateTimeExtensions`), the JSON timestamp converter
(`FloatUnixTimeConverter`) and the query-string builder (`Utils.CreateQuery`).

Every client operation is modelled up to the point where it hands a relative
URI to the HTTP layer. It either throws, giving an `Exception` value, or
produces a `Request`: the endpoint path plus the parameter dictionary in
insertion order.
`OpenSkyClient.Uri` renders a request the way the code concatenates path and
query. The exceptions the client raises itself (`ArgumentNullException` with
its parameter name, `OpenSkyException` with its message) are modelled with the
code's type, parameter name and message; the ones the .NET runtime raises
(`ArgumentOutOfRangeException` from `DateTime` arithmetic,
`InvalidCastException` and `NullReferenceException` from unboxing) are
modelled by type only.

Modules, one per source concept:

- `Wrappers`: `Option`, `Result` and `Outcome`.
- `Clr`: the .NET behaviour the code relies on. This covers the exceptions,
  the saturating `(int)` cast of a `double`, `string.IsNullOrWhiteSpace`, and
  the decimal rendering of integers together with a reference parser for it.
- `Calendar`, `DateTimes`: `DateTime` as a tick count (100 ns units since
  0001-01-01). It comes with the checked arithmetic `AddTicks`,
  `AddMilliseconds`, `AddSeconds` and `Subtract`, which throw
  `ArgumentOutOfRange` when the result leaves the range.
- `DateTimeExtensions`: `ToUnixTimestamp` and the three `FromUnixTimestamp`
  overloads.
- `FloatUnixTimeConverter`: the converter tells seconds from milliseconds by
  the JSON token's kind, not by its magnitude. It first unboxes the token as a
  `double` and, only when that cast throws, unboxes it as a `long`.
- `Utils`: `CreateQuery` over an insertion-ordered dictionary.
- `QueryParsing`: a reference reading of query strings, which is the
  independent partner of `CreateQuery`.
- `OpenSkyClient`: the constructors and every public operation.
- `ClientProperties`: lemmas that relate several operations, or relate an
  operation to what the reference reading `ParseQuery` finds in its query. The exceptions the client raises itself (`ArgumentNullException` with
its parameter name, `OpenSkyException` with its message) are modelled with the
code's type, parameter name and message; the ones the .NET runtime raises
(`ArgumentOutOfRangeException` from `DateTime` arithmetic,
`InvalidCastException` and `NullReferenceException` from unboxing) are
modelled by type only.
- `Corrections`: the two defects listed under Findings, each modelled both as
  written and as intended.

`DateTime.UtcNow` becomes the parameter `now`. The authorization header is
reduced to the flag `Client.isAuthorized`. A `float` region bound becomes a
`Coordinate`, which holds its value and its culture-dependent text.

The client's tests expect `GetStates` to throw for a region whose minimum
exceeds its maximum (`src/OpenSky.Tests/OpenSkyClientTests.cs:89-102`). The
code compares no bounds, and the model follows the code; see
`ClientProperties.InvertedRegionAccepted`.

## Model

| member | source | states |
|---|---|---|
| Clr.Truncate | src/OpenSky/DateTimeExtensions.cs:11 | the integer is the real rounded toward zero: it lies within one unit of the real, on the zero side |
| Clr.CastToInt32 | src/OpenSky/OpenSky.Converters/FloatUnixTimeConverter.cs:16 | the `(int)` cast truncates toward zero and saturates at the `int` bounds |
| Clr.IsNullOrWhiteSpace | src/OpenSky/OpenSkyClient.cs:253-256 | a string is blank exactly when it is null or nothing is left once its leading white space is trimmed |
| Clr.IntText | src/OpenSky/Utils.cs:19 | an integer renders as a non-empty run of digits and minus signs, led by `-` exactly when it is negative; `IntTextRoundTrip` is its inverse |
| Clr.NatTextRoundTrip | src/OpenSky/Utils.cs:19 | the decimal rendering of a natural number parses back to that number |
| Clr.IntTextRoundTrip | src/OpenSky/Utils.cs:19 | the decimal rendering of any integer, sign included, parses back to that integer |
| Calendar.YearLength | src/OpenSky/DateTimeExtensions.cs:7 | the closed-form day count grows by 366 across a leap year and by 365 otherwise |
| DateTimes.AddTicks | src/OpenSky/DateTimeExtensions.cs:20-24 | adding ticks succeeds exactly when the result stays within year 1 to year 9999; it then moves by exactly the delta, and otherwise throws `ArgumentOutOfRange` |
| DateTimes.AddMilliseconds | src/OpenSky/DateTimeExtensions.cs:23-24 | succeeds exactly when the shifted instant stays in range, moving by exactly `n` milliseconds; otherwise throws `ArgumentOutOfRange` |
| DateTimes.AddSeconds | src/OpenSky/DateTimeExtensions.cs:20-21 | succeeds exactly when the shifted instant stays in range, moving by exactly `n` seconds; otherwise throws `ArgumentOutOfRange` |
| DateTimes.Subtract | src/OpenSky/OpenSkyClient.cs:158-161 | stepping back by a span succeeds exactly when the result is not before year 1, and lands exactly that span earlier; otherwise throws `ArgumentOutOfRange` |
| DateTimes.TickConstantsAreCalendarInstants | src/OpenSky/DateTimeExtensions.cs:7 | the default instant, the Unix epoch and the maximum tick are 0001-01-01, 1970-01-01 and the last tick of 9999-12-31 |
| DateTimeExtensions.ToUnixTimestamp | src/OpenSky/DateTimeExtensions.cs:9-18 | gives whole seconds since the epoch, truncated toward zero. The result is -1 exactly when the instant is a full second or more before the epoch, 0 within the second before it, and saturates at `int.MaxValue` |
| DateTimeExtensions.FromUnixSeconds | src/OpenSky/DateTimeExtensions.cs:20-21 | the instant lies exactly `n` seconds from the epoch, and before the epoch exactly when `n` is negative |
| DateTimeExtensions.FromUnixMillis | src/OpenSky/DateTimeExtensions.cs:23-24 | succeeds exactly when epoch plus `n` milliseconds is a valid instant, and is then exactly that instant; otherwise it throws `ArgumentOutOfRange` |
| DateTimeExtensions.FromUnixNullable | src/OpenSky/DateTimeExtensions.cs:26-34 | null stays null; a value is read as seconds |
| DateTimeExtensions.UnixSecondsRoundTrip | src/OpenSky/DateTimeExtensions.cs:9-21 | converting seconds to an instant and back gives the seconds when they are non-negative, and -1 otherwise |
| DateTimeExtensions.SubSecondTicksTruncate | src/OpenSky/DateTimeExtensions.cs:11 | every instant within the second after `n` truncates back to `n` |
| DateTimeExtensions.ToUnixTimestampMonotonic | src/OpenSky/DateTimeExtensions.cs:9-18 | a later instant never has a smaller Unix timestamp |
| DateTimeExtensions.MillisecondsAgreeWithSeconds | src/OpenSky/DateTimeExtensions.cs:20-24 | `n` seconds and `1000 n` milliseconds are the same instant |
| DateTimeExtensions.NewYear2021 | src/OpenSky/DateTimeExtensions.cs:7-24 | 1609459200 seconds, 1609459200000 milliseconds and the calendar instant 2021-01-01T00:00:00Z all agree |
| FloatUnixTimeConverter.ReadJson | src/OpenSky/OpenSky.Converters/FloatUnixTimeConverter.cs:11-25 | a float token always decodes: as its truncated whole seconds when the integer part fits an `int`, and beyond that the cast saturates, giving `Int32Max` seconds (2038-01-19T03:14:07Z) or `Int32Min` seconds. An integer token that fits a `long` decodes as milliseconds. An integer too large for a `long`, a string or a boolean throws `InvalidCast`, and null throws `NullReference` |
| FloatUnixTimeConverter.WriteJson | src/OpenSky/OpenSky.Converters/FloatUnixTimeConverter.cs:27-28 | writing always throws `NotImplemented` |
| FloatUnixTimeConverter.CanWrite | src/OpenSky/OpenSky.Converters/FloatUnixTimeConverter.cs:9 | the converter declares itself read-only |
| FloatUnixTimeConverter.ReaderValue | src/OpenSky/OpenSky.Converters/FloatUnixTimeConverter.cs:15-22 | the reader boxes an integer token as a `long` exactly when it fits one (as a big integer otherwise), a float token as a `double` of the same value, and null as a null reference |
| FloatUnixTimeConverter.UnboxDouble | src/OpenSky/OpenSky.Converters/FloatUnixTimeConverter.cs:15 | the `(double)` unboxing succeeds exactly on a boxed `double`, giving its value; null throws `NullReference` and anything else `InvalidCast` |
| FloatUnixTimeConverter.UnboxLong | src/OpenSky/OpenSky.Converters/FloatUnixTimeConverter.cs:22 | the `(long)` unboxing succeeds exactly on a boxed `long`, giving its value; null throws `NullReference` and anything else `InvalidCast` |
| FloatUnixTimeConverter.FractionDiscarded | src/OpenSky/OpenSky.Converters/FloatUnixTimeConverter.cs:15-17 | only the integer part of a float token matters |
| FloatUnixTimeConverter.IntegerTokenIsMilliseconds | src/OpenSky/OpenSky.Converters/FloatUnixTimeConverter.cs:19-23 | a non-zero integer token is read as milliseconds, so it decodes to a different instant than the same number written as a float |
| FloatUnixTimeConverter.FloatBeyondInt32Saturates | src/OpenSky/OpenSky.Converters/FloatUnixTimeConverter.cs:15-17 | every float of 2^31 or more decodes to 2038-01-19T03:14:07Z, the saturated `int` seconds, so 1e12 meant as milliseconds lands there too |
| FloatUnixTimeConverter.SecondsAndMillisecondsConverge | src/OpenSky/OpenSky.Converters/FloatUnixTimeConverter.cs:11-25 | float 1609459200.0 and integer 1609459200000 both decode to 2021-01-01T00:00:00Z |
| Utils.CreateQuery | src/OpenSky/Utils.cs:9-23 | the query is empty exactly for a null or empty dictionary, and otherwise starts with `?` |
| Utils.CreateQuerySingle | src/OpenSky/Utils.cs:11-20 | a one-entry dictionary renders as `?` followed by that entry's text |
| Utils.LookupDistinct | src/OpenSky/Utils.cs:13-19 | with distinct keys, every entry is found under its own key |
| QueryParsing.SplitJoin | src/OpenSky/Utils.cs:13 | splitting a join at the separator gives the parts back when no part contains the separator |
| QueryParsing.CreateQueryRoundTrip | src/OpenSky/Utils.cs:9-23 | `ParseQuery` reads back from the query every key/value pair of the dictionary in insertion order, with list items expanded in place (when keys hold no `&` or `=` and values no `&`) |
| QueryParsing.KeyOccurrences | src/OpenSky/Utils.cs:15-19 | with distinct keys, a key occurs in the parsed pairs once for a scalar and once per item for a list |
| QueryParsing.KeyValues | src/OpenSky/Utils.cs:15-19 | with distinct keys, the pairs under a key carry exactly the texts of its value, in order |
| QueryParsing.CreateQueryExamples | src/OpenSky/Utils.cs:11-22 | null and empty dictionaries give `""`, and `CreateQuery` leaves a space unescaped |
| QueryParsing.CreateQueryListExample | src/OpenSky/Utils.cs:15-17 | a list value repeats its key: `?icao24=abc&icao24=def` |
| QueryParsing.CreateQueryEmptyListExample | src/OpenSky/Utils.cs:13-17 | an empty list leaves an empty field: `?&time=1` |
| OpenSkyClient.NewClient | src/OpenSky/OpenSkyClient.cs:23-34 | the parameterless client is anonymous |
| OpenSkyClient.NewClientWithCredentials | src/OpenSky/OpenSkyClient.cs:42-54 | succeeds exactly when both credentials are non-blank, and the client is then authorized. The username is checked first, each failure naming its parameter |
| OpenSkyClient.Uri | src/OpenSky/OpenSkyClient.cs:107 | the relative URI starts with the path, is the bare path exactly when there are no parameters, and otherwise continues with `?` |
| OpenSkyClient.StatesParametersOrdered | src/OpenSky/OpenSkyClient.cs:87-106 | the states parameters have distinct keys, in the order time, icao24, lamin, lomin, lamax, lomax |
| OpenSkyClient.GetStates | src/OpenSky/OpenSkyClient.cs:85-110 | refuses exactly a non-default time more than an hour before now, with the code's message. Each parameter is present exactly when its argument is and holds that argument, and keys stay distinct and in canonical order |
| OpenSkyClient.GetState | src/OpenSky/OpenSkyClient.cs:67-70 | the single-aircraft call has the same time rule and error as `GetStates`, and the same distinct, ordered keys with `time` present exactly for a non-default time; it sends the one identifier as a one-item list and no region |
| OpenSkyClient.GetMyStates | src/OpenSky/OpenSkyClient.cs:124-147 | refused exactly for an anonymous client, with no age limit on time. Parameters are present exactly when given, in the order time, icao24, serials, and the serials parameter is the text `System.Int32[]` |
| OpenSkyClient.GetFlights | src/OpenSky/OpenSkyClient.cs:174-187 | accepted exactly when both ends are non-default and end is at most two hours after begin (a reversed interval passes); the URI is `flights/all?begin=…&end=…` with both Unix timestamps |
| OpenSkyClient.GetFlightsEndingAt | src/OpenSky/OpenSkyClient.cs:158-161 | throws `ArgumentOutOfRange` when end is within two hours of year 1, and is accepted exactly when end is more than two hours after it; the window is the two hours before end |
| OpenSkyClient.GetFlightsByAircraft | src/OpenSky/OpenSkyClient.cs:218-236 | a blank icao24 throws first. Otherwise the call is accepted exactly when both ends are non-default and at most 30 days apart, and the URI carries icao24, begin and end in that order |
| OpenSkyClient.GetFlightsByAircraftEndingAt | src/OpenSky/OpenSkyClient.cs:200-203 | stepping back 30 days is done, and may throw, before the identifier is checked. The call is accepted exactly for a non-blank identifier and an end more than 30 days after year 1 |
| OpenSkyClient.GetAirportArrivals | src/OpenSky/OpenSkyClient.cs:339-357 | a blank airport code throws first. Otherwise the call is accepted exactly for non-default ends at most 7 days apart, with `airport`, `begin`, `end` on `flights/arrival` |
| OpenSkyClient.GetAirportArrivalsEndingAt | src/OpenSky/OpenSkyClient.cs:321-324 | the 7 days before end; the step back may throw before the code is checked |
| OpenSkyClient.GetAirportDepartures | src/OpenSky/OpenSkyClient.cs:388-406 | as for arrivals, on `flights/departure` |
| OpenSkyClient.GetAirportDeparturesEndingAt | src/OpenSky/OpenSkyClient.cs:370-373 | the 7 days before end; the step back may throw before the code is checked |
| OpenSkyClient.GetTrackByAircraft | src/OpenSky/OpenSkyClient.cs:251-268 | a blank icao24 throws first. Otherwise the call is accepted exactly when time is at most 30 days before now, with the default time included in that check; time is sent as 0 when it is the default |
| OpenSkyClient.GetAircraftRegistration | src/OpenSky/OpenSkyClient.cs:279-287 | refused exactly for a blank identifier; otherwise the identifier is the last path segment and there is no query |
| OpenSkyClient.SearchQueryText | src/OpenSky/OpenSkyClient.cs:307 | the hand-written `?n=…&p=1&q=…` is exactly what `CreateQuery` renders for `n`, `p` and `q` |
| OpenSkyClient.GetAircraftSearch | src/OpenSky/OpenSkyClient.cs:300-308 | refused exactly for a blank search; otherwise the URI is `CreateQuery`'s rendering of the count, page 1 and the term |
| OpenSkyClient.GetAirportInfo | src/OpenSky/OpenSkyClient.cs:417-425 | refused exactly for a blank code; otherwise the URI is `airports` with the single `icao` parameter |
| OpenSkyClient.GetAirportsByRegion | src/OpenSky/OpenSkyClient.cs:436-451 | refused exactly for a null region. Otherwise the four bounds are sent unchecked, in the order lamin, lomin, lamax, lomax |
| ClientProperties.FlightsQueryDecodes | src/OpenSky/OpenSkyClient.cs:181-184 | reading back a flights query finds `begin` then `end` and reads back the two Unix timestamps |
| ClientProperties.UriReadsBack | src/OpenSky/OpenSkyClient.cs:107 | after the path, the URI reads back as the request's parameter pairs whenever they are unambiguous |
| ClientProperties.StatesIcao24QueryDecodes | src/OpenSky/OpenSkyClient.cs:96-107 | reading back a states query finds one `icao24` pair per aircraft, carrying its text, in the given order (when no aircraft or bound text holds `&`) |
| ClientProperties.AircraftFlightsQueryDecodes | src/OpenSky/OpenSkyClient.cs:229-233 | reading back an aircraft-flights query finds the aircraft, then `begin` and `end` parsing to the two Unix timestamps |
| ClientProperties.ArrivalsQueryDecodes | src/OpenSky/OpenSkyClient.cs:350-354 | reading back an arrivals query finds the airport, then `begin` and `end` parsing to the two Unix timestamps |
| ClientProperties.DeparturesQueryDecodes | src/OpenSky/OpenSkyClient.cs:399-403 | reading back a departures query finds the airport, then `begin` and `end` parsing to the two Unix timestamps |
| ClientProperties.RegionQueryDecodes | src/OpenSky/OpenSkyClient.cs:443-448 | reading back an airports-by-region query finds the four bound texts, in the order lamin, lomin, lamax, lomax |
| ClientProperties.StatesIcao24Occurrences | src/OpenSky/OpenSkyClient.cs:96-99 | in the dictionary's expansion into pairs, a states request has one `icao24` pair per aircraft |
| ClientProperties.StatesTwoHoursOldRefused | src/OpenSky.Tests/OpenSkyClientTests.cs:65-74 | a states request for two hours before now is refused, as the tests expect |
| ClientProperties.StatesWindowEdge | src/OpenSky/OpenSkyClient.cs:88-95 | exactly one hour back is accepted, and one tick more is refused |
| ClientProperties.StatesDefaultTimeAccepted | src/OpenSky/OpenSkyClient.cs:87-95 | the default time means "now": it is never refused, and no time parameter is sent |
| ClientProperties.MyStatesHaveNoWindow | src/OpenSky/OpenSkyClient.cs:126-135 | an authorized client may ask for its own states at any instant, and an anonymous one never can |
| ClientProperties.InvertedRegionAccepted | src/OpenSky.Tests/OpenSkyClientTests.cs:89-102 | a region whose minima exceed its maxima is accepted by both region calls, which differs from what the tests expect |
| ClientProperties.FlightsEndingAtIsLastTwoHours | src/OpenSky/OpenSkyClient.cs:158-161 | for every end: `ArgumentOutOfRange` when end is less than two hours after year 1 began, and otherwise the two-argument call on the two hours before end (which at exactly two hours refuses the default begin as too wide) |
| ClientProperties.AircraftFlightsEndingAtIsLast30Days | src/OpenSky/OpenSkyClient.cs:200-203 | the one-argument call throws `ArgumentOutOfRange` within 30 days of year 1 and is otherwise the two-argument call on the 30 days before end |
| ClientProperties.ArrivalsEndingAtIsLastWeek | src/OpenSky/OpenSkyClient.cs:321-324 | the one-argument call throws `ArgumentOutOfRange` within 7 days of year 1 and is otherwise the two-argument call on the 7 days before end |
| ClientProperties.DeparturesEndingAtIsLastWeek | src/OpenSky/OpenSkyClient.cs:370-373 | the one-argument call throws `ArgumentOutOfRange` within 7 days of year 1 and is otherwise the two-argument call on the 7 days before end |
| ClientProperties.DefaultSearchQuery | src/OpenSky/OpenSkyClient.cs:300-307 | without an explicit count, a search URI is `metadata/aircraft/list?n=50&p=1&q=` followed by the term |
| ClientProperties.FlightsWindowEdges | src/OpenSky/OpenSkyClient.cs:176-179 | two hours apart is accepted, one tick more is refused, and a reversed interval passes |
| ClientProperties.ArrivalsAndDeparturesAgree | src/OpenSky/OpenSkyClient.cs:339-406 | arrivals and departures accept, refuse and parameterise identically |
| Corrections.SerialsCollapsed | src/OpenSky/OpenSkyClient.cs:140-143 | as written, any list of serials reads back as the single pair `serials=System.Int32[]` |
| Corrections.SerialsIndistinguishable | src/OpenSky/OpenSkyClient.cs:140-144 | as written, serials `[1]` and `[2, 3]` give the same URI |
| Corrections.GetMyStatesCorrected | src/OpenSky/OpenSkyClient.cs:124-147 | the corrected call sends one `serials` pair per tracker and keeps the keys distinct |
| Corrections.CorrectedSerialsRoundTrip | src/OpenSky/OpenSkyClient.cs:140-143 | after the correction, the query reads back as exactly the given serials, in order |
| Corrections.CorrectionKeepsOtherRequests | src/OpenSky/OpenSkyClient.cs:124-147 | without serials, the corrected call equals the written one |
| Corrections.DefaultTrackTimeRefused | src/OpenSky/OpenSkyClient.cs:257-260 | as written, a default time is refused whenever now is more than 30 days after year 1 |
| Corrections.DefaultTrackTimeRefusedIn2021 | src/OpenSky/OpenSkyClient.cs:257-264 | as written, the live-track request for `abc9f3` on 2021-01-01 is refused |
| Corrections.GetTrackByAircraftCorrected | src/OpenSky/OpenSkyClient.cs:251-268 | the corrected call applies the 30-day check only to an explicit time, and sends `time=0` for the default |
| Corrections.TrackCorrectionAgreesOnExplicitTime | src/OpenSky/OpenSkyClient.cs:257-264 | for an explicit time, the corrected call equals the written one |

## Left out

- `GetAsync`, `HttpClient` and `Dispose` are left out because they are I/O. This covers the request itself, gzip/deflate decompression, the Accept header, JSON deserialisation of the response, and returning `default` on a non-success status. The model stops at the relative URI; `BaseUrl` records the base address.
- Cancellation tokens are left out because they only reach `GetAsync`.
- The Basic authorization header (section 2 of RFC 7617, Base64 of `username:password`) is reduced to `Client.isAuthorized`. That flag is all the operations consult.
- `DateTime.UtcNow` is the parameter `now`.
- DateTimeExtensions.ToUnixTimestamp: every instant is taken as UTC, so `ToUniversalTime` is the identity. The window checks compare against `UtcNow` without converting, so for local-kind times the two can disagree; kinds and time zones are not modelled.
- DateTimeExtensions.ToUnixTimestamp: `TotalSeconds` is a `double`, and the model divides exactly instead. Tick counts beyond 2^53 since the epoch (any instant after mid-1998) are rounded when converted to `double`, so an instant just before a whole second can truncate to the next one. For the last tick before 2021-01-01T00:00:00Z the code gives 1609459200 and the model 1609459199.
- DateTimeExtensions.SubSecondTicksTruncate: holds under exact division only; after mid-1998 the code's `double` rounding lets the last ticks of a second truncate to the next second.
- OpenSkyClient.GetStates: `TotalMinutes > 60` on a `double` is compared as exact ticks. The same applies to `TotalMinutes > 120` in OpenSkyClient.GetFlights and to `TotalDays` in OpenSkyClient.GetFlightsByAircraft, OpenSkyClient.GetAirportArrivals, OpenSkyClient.GetAirportDepartures and OpenSkyClient.GetTrackByAircraft.
- FloatUnixTimeConverter.ReadJson: a float token is an exact real, so `double` precision is not modelled. Token kinds other than numbers, strings, booleans and null (dates, objects, arrays) are left out.
- Clr.CastToInt32: the out-of-range `(int)` cast saturates, as on current .NET; older runtimes gave unspecified values.
- Region bounds are `float`s rendered with the current culture; the model takes the rendered text as given (`Coordinate.text`).
- Clr.IntText: integers are interpolated with the current culture, whose negative sign is not always the ASCII `-` (some cultures use U+2212). The model always renders `-`. This affects the `-1` that `ToUnixTimestamp` gives for instants before 1970, and a negative search count.
- The URI layer is left out. `GetAsync` hands the relative URI to `System.Uri`, which escapes characters such as a space (`%20`) and treats everything after `#` as a fragment. `ParseQuery` reads the string `CreateQuery` builds, before that layer; the decoding lemmas hold for that string.
- The response entities, `OpenSkyException` and the converters `TrackPathArrayConverter` and `InterfaceConverter` are not part of this model. They are data carriers and JSON plumbing outside the request-building core.
- The client tests call the live service and are not modelled, except for the two time-range and region expectations cited above.

## Findings

| source | as written | input that shows it | evidently intended | confidence | as-written member | corrected member |
|---|---|---|---|---|---|---|
| src/OpenSky/OpenSkyClient.cs:140-143 | the serials are added as an `int[]`; `CreateQuery` expands only `IEnumerable<object>`, so the array is sent as its type name `serials=System.Int32[]` | an authorized `GetMyStates(serials: [1])` and `GetMyStates(serials: [2, 3])` give the same URI | one `serials=<n>` pair per tracker, as for `icao24` | high, not executed | Corrections.SerialsIndistinguishable | Corrections.GetMyStatesCorrected |
| src/OpenSky/OpenSkyClient.cs:257-264 | the 30-day age check also runs for the default time (year 1), so every default call is refused and the `time == default ? 0` branch can never be reached | `GetTrackByAircraft("abc9f3")` with now = 2021-01-01 | a default time means "now": skip the age check and send `time=0` | high, not executed | Corrections.DefaultTrackTimeRefused | Corrections.GetTrackByAircraftCorrected |
