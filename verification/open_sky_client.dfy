/**
 * The public operations of `OpenSkyClient` up to the point where they hand
 * a relative URI to the HTTP layer. Each operation either throws (an
 * `Exception`) or produces a `Request`: the endpoint path and the ordered
 * query parameters, whose rendering `Uri` is what would be fetched.
 * `DateTime.UtcNow` is the parameter `now`.
 */
module OpenSkyClient {
  import opened Wrappers
  import opened Clr
  import opened Calendar
  import opened DateTimes
  import opened DateTimeExtensions
  import opened Utils

  const BaseUrl: string := "https://opensky-network.org/api/"

  /** A client; it is authorized once a Basic authorization header has been set. */
  datatype Client = Client(isAuthorized: bool)

  /** A `float` coordinate together with its culture-dependent rendering. */
  datatype Coordinate = Coordinate(degrees: real, text: string)

  /** `OpenSkyRegion`: a latitude/longitude box, with no ordering imposed on its bounds. */
  datatype Region = Region(
    minLatitude: Coordinate,
    maxLatitude: Coordinate,
    minLongitude: Coordinate,
    maxLongitude: Coordinate)

  /** What an operation passes to `GetAsync`. */
  datatype Request = Request(path: string, parameters: Dictionary)

  /**
   * The relative URI the request is sent to (under `BaseUrl`): the path,
   * then, only when there are parameters, `?` and the query.
   */
  function Uri(request: Request): (uri: string)
    ensures |request.path| <= |uri| && uri[..|request.path|] == request.path
    ensures uri == request.path <==> request.parameters == []
    ensures uri != request.path ==> uri[|request.path|] == '?'
  {
    request.path + CreateQuery(Some(request.parameters))
  }

  // Limits on how far back or how wide a request may reach.
  const StatesWindow: int := 60 * TicksPerMinute
  const FlightsWindow: int := 120 * TicksPerMinute
  const AircraftFlightsWindow: int := 30 * TicksPerDay
  const AirportFlightsWindow: int := 7 * TicksPerDay
  const TrackWindow: int := 30 * TicksPerDay

  // The spans the one-argument overloads step back from `end`.
  const FlightsSpan: int := 2 * TicksPerHour
  const AircraftFlightsSpan: int := 30 * TicksPerDay
  const AirportFlightsSpan: int := 7 * TicksPerDay

  const DefaultSearchAmount: Int32 := 50

  const StatesTooOld: string := "Cannot retrieve states over one hour in the past"
  const AnonymousNotAllowed: string := "Method not allowed for anonymous users"
  const FlightsWindowTooWide: string :=
    "Beginning and end time must be provided, and must be within 2 hours of each other"
  const AircraftFlightsWindowTooWide: string :=
    "Beginning and end time must be provided, and must be within 30 days of each other"
  const AirportFlightsWindowTooWide: string :=
    "Beginning and end time must be provided, and must be within 7 days of each other"
  const TrackTooOld: string := "Cannot access flight tracks over 30 days in the past"

  /** What `ToString` gives for an `int[]`: its type name. */
  const Int32ArrayTypeName: string := "System.Int32[]"

  const StatesKeyOrder: seq<string> := ["time", "icao24", "lamin", "lomin", "lamax", "lomax"]
  const RegionKeys: seq<string> := ["lamin", "lomin", "lamax", "lomax"]
  const MyStatesKeyOrder: seq<string> := ["time", "icao24", "serials"]

  /** The anonymous client. */
  function NewClient(): (client: Client)
    ensures !client.isAuthorized
  {
    Client(false)
  }

  /** The credential constructor: both credentials must be present, the username is checked first. */
  function NewClientWithCredentials(username: Option<string>, password: Option<string>): (r: Result<Client, Exception>)
    ensures r.Ok? <==> !IsNullOrWhiteSpace(username) && !IsNullOrWhiteSpace(password)
    ensures r.Ok? ==> r.value.isAuthorized
    ensures IsNullOrWhiteSpace(username) ==> r == Err(ArgumentNull("username"))
    ensures !IsNullOrWhiteSpace(username) && IsNullOrWhiteSpace(password) ==> r == Err(ArgumentNull("password"))
  {
    if IsNullOrWhiteSpace(username) then Err(ArgumentNull("username"))
    else if IsNullOrWhiteSpace(password) then Err(ArgumentNull("password"))
    else Ok(Client(true))
  }

  /** An instant as a query value: its Unix timestamp in decimal. */
  function TimestampValue(time: DateTime): QueryValue {
    Scalar(IntText(ToUnixTimestamp(time)))
  }

  /** The items of a list of (possibly null) strings as rendered by interpolation. */
  function Texts(strings: seq<Option<string>>): (r: seq<string>)
    ensures |r| == |strings|
    ensures forall i | 0 <= i < |strings| :: r[i] == Text(strings[i])
  {
    if |strings| == 0 then [] else [Text(strings[0])] + Texts(strings[1..])
  }

  function RegionParameters(region: Region): (d: Dictionary)
    ensures Keys(d) == RegionKeys
    ensures DistinctKeys(d)
  {
    [ ("lamin", Scalar(region.minLatitude.text)),
      ("lomin", Scalar(region.minLongitude.text)),
      ("lamax", Scalar(region.maxLatitude.text)),
      ("lomax", Scalar(region.maxLongitude.text)) ]
  }

  /** The optional `time` parameter: present only for a non-default instant. */
  function TimeParameter(time: DateTime): (d: Dictionary)
    ensures Keys(d) == if time != Default then ["time"] else []
    ensures Lookup(d, "time") == if time != Default then Some(TimestampValue(time)) else None
  {
    if time != Default then [("time", TimestampValue(time))] else []
  }

  function Icao24Parameter(icao24s: Option<seq<Option<string>>>): (d: Dictionary)
    ensures Keys(d) == if icao24s.Some? then ["icao24"] else []
    ensures icao24s.Some? ==> Lookup(d, "icao24") == Some(Sequence(Texts(icao24s.value)))
  {
    if icao24s.Some? then [("icao24", Sequence(Texts(icao24s.value)))] else []
  }

  function OptionalRegionParameters(region: Option<Region>): (d: Dictionary)
    ensures Keys(d) == if region.Some? then RegionKeys else []
    ensures region.Some? ==>
              && Lookup(d, "lamin") == Some(Scalar(region.value.minLatitude.text))
              && Lookup(d, "lomin") == Some(Scalar(region.value.minLongitude.text))
              && Lookup(d, "lamax") == Some(Scalar(region.value.maxLatitude.text))
              && Lookup(d, "lomax") == Some(Scalar(region.value.maxLongitude.text))
  {
    if region.Some? then
      var d := RegionParameters(region.value);
      LookupDistinct(d, 0);
      LookupDistinct(d, 1);
      LookupDistinct(d, 2);
      LookupDistinct(d, 3);
      d
    else []
  }

  function StatesParameters(icao24s: Option<seq<Option<string>>>, time: DateTime, region: Option<Region>): Dictionary {
    TimeParameter(time) + Icao24Parameter(icao24s) + OptionalRegionParameters(region)
  }

  lemma StatesKeysSplit(icao24s: Option<seq<Option<string>>>, time: DateTime, region: Option<Region>)
    ensures Keys(StatesParameters(icao24s, time, region))
         == Keys(TimeParameter(time)) + Keys(Icao24Parameter(icao24s)) + Keys(OptionalRegionParameters(region))
  {
    var t := TimeParameter(time);
    var a := Icao24Parameter(icao24s);
    KeysAppend(t, a);
    KeysAppend(t + a, OptionalRegionParameters(region));
  }

  /** Each optional part present or absent, the keys keep the canonical order and stay distinct. */
  lemma StatesKeysInOrder(kt: seq<string>, ka: seq<string>, kg: seq<string>)
    requires kt == [] || kt == ["time"]
    requires ka == [] || ka == ["icao24"]
    requires kg == [] || kg == RegionKeys
    ensures IsSubsequence(kt + ka + kg, StatesKeyOrder)
    ensures Distinct(kt + ka + kg)
  {
    assert IsSubsequence(kt + ka, ["time", "icao24"]) by {
      SubsequenceConcat(kt, ka, ["time"], ["icao24"]);
      assert ["time"] + ["icao24"] == ["time", "icao24"];
    }
    SubsequenceReflexive(RegionKeys);
    SubsequenceConcat(kt + ka, kg, ["time", "icao24"], RegionKeys);
    assert ["time", "icao24"] + RegionKeys == StatesKeyOrder;
    assert Distinct(StatesKeyOrder);
    SubsequenceOfDistinct(kt + ka + kg, StatesKeyOrder);
  }

  lemma StatesParametersOrdered(icao24s: Option<seq<Option<string>>>, time: DateTime, region: Option<Region>)
    ensures IsSubsequence(Keys(StatesParameters(icao24s, time, region)), StatesKeyOrder)
    ensures DistinctKeys(StatesParameters(icao24s, time, region))
  {
    StatesKeysSplit(icao24s, time, region);
    StatesKeysInOrder(Keys(TimeParameter(time)), Keys(Icao24Parameter(icao24s)), Keys(OptionalRegionParameters(region)));
    DistinctKeysFromKeys(StatesParameters(icao24s, time, region));
  }

  lemma StatesParametersTime(icao24s: Option<seq<Option<string>>>, time: DateTime, region: Option<Region>)
    ensures var d := StatesParameters(icao24s, time, region);
      && ("time" in Keys(d) <==> time != Default)
      && (time != Default ==> Lookup(d, "time") == Some(TimestampValue(time)))
  {
    var t := TimeParameter(time);
    var a := Icao24Parameter(icao24s);
    var g := OptionalRegionParameters(region);
    KeysAppend(t, a);
    LookupAppend(t + a, g, "time");
    LookupAppend(t, a, "time");
  }

  lemma StatesParametersIcao24(icao24s: Option<seq<Option<string>>>, time: DateTime, region: Option<Region>)
    ensures var d := StatesParameters(icao24s, time, region);
      && ("icao24" in Keys(d) <==> icao24s.Some?)
      && (icao24s.Some? ==> Lookup(d, "icao24") == Some(Sequence(Texts(icao24s.value))))
  {
    var t := TimeParameter(time);
    var a := Icao24Parameter(icao24s);
    var g := OptionalRegionParameters(region);
    KeysAppend(t, a);
    LookupAppend(t + a, g, "icao24");
    LookupAppend(t, a, "icao24");
  }

  lemma StatesParametersRegion(icao24s: Option<seq<Option<string>>>, time: DateTime, region: Option<Region>)
    ensures var d := StatesParameters(icao24s, time, region);
      && (forall k | k in RegionKeys :: (k in Keys(d) <==> region.Some?))
      && (region.Some? ==>
            && Lookup(d, "lamin") == Some(Scalar(region.value.minLatitude.text))
            && Lookup(d, "lomin") == Some(Scalar(region.value.minLongitude.text))
            && Lookup(d, "lamax") == Some(Scalar(region.value.maxLatitude.text))
            && Lookup(d, "lomax") == Some(Scalar(region.value.maxLongitude.text)))
  {
    var t := TimeParameter(time);
    var a := Icao24Parameter(icao24s);
    var g := OptionalRegionParameters(region);
    StatesKeysSplit(icao24s, time, region);
    KeysAppend(t, a);
    LookupAppend(t + a, g, "lamin");
    LookupAppend(t + a, g, "lomin");
    LookupAppend(t + a, g, "lamax");
    LookupAppend(t + a, g, "lomax");
  }

  /**
   * `GetStates`: a non-default `time` more than an hour before `now` is
   * refused; parameters follow the order time, icao24, lamin, lomin, lamax,
   * lomax, each present only when its argument is. The region's bounds are
   * not compared.
   */
  function GetStates(icao24s: Option<seq<Option<string>>>, time: DateTime, region: Option<Region>, now: DateTime)
    : (r: Result<Request, Exception>)
    ensures r.Err? <==> time != Default && now - time > StatesWindow
    ensures r.Err? ==> r.error == OpenSky(StatesTooOld)
    ensures r.Ok? ==> r.value.path == "states/all"
    ensures r.Ok? ==> DistinctKeys(r.value.parameters) && IsSubsequence(Keys(r.value.parameters), StatesKeyOrder)
    ensures r.Ok? ==> ("time" in Keys(r.value.parameters) <==> time != Default)
    ensures r.Ok? && time != Default ==> Lookup(r.value.parameters, "time") == Some(TimestampValue(time))
    ensures r.Ok? ==> ("icao24" in Keys(r.value.parameters) <==> icao24s.Some?)
    ensures r.Ok? && icao24s.Some? ==>
              Lookup(r.value.parameters, "icao24") == Some(Sequence(Texts(icao24s.value)))
    ensures r.Ok? ==> forall k | k in RegionKeys :: (k in Keys(r.value.parameters) <==> region.Some?)
    ensures r.Ok? && region.Some? ==>
              && Lookup(r.value.parameters, "lamin") == Some(Scalar(region.value.minLatitude.text))
              && Lookup(r.value.parameters, "lomin") == Some(Scalar(region.value.minLongitude.text))
              && Lookup(r.value.parameters, "lamax") == Some(Scalar(region.value.maxLatitude.text))
              && Lookup(r.value.parameters, "lomax") == Some(Scalar(region.value.maxLongitude.text))
  {
    if time != Default && now - time > StatesWindow then Err(OpenSky(StatesTooOld))
    else
      StatesParametersOrdered(icao24s, time, region);
      StatesParametersTime(icao24s, time, region);
      StatesParametersIcao24(icao24s, time, region);
      StatesParametersRegion(icao24s, time, region);
      Ok(Request("states/all", StatesParameters(icao24s, time, region)))
  }

  /** `GetState`: the states call for a single aircraft, without a region. */
  function GetState(icao24: Option<string>, time: DateTime, now: DateTime): (r: Result<Request, Exception>)
    ensures r.Err? <==> time != Default && now - time > StatesWindow
    ensures r.Err? ==> r.error == OpenSky(StatesTooOld)
    ensures r.Ok? ==> r.value.path == "states/all"
    ensures r.Ok? ==> DistinctKeys(r.value.parameters) && IsSubsequence(Keys(r.value.parameters), StatesKeyOrder)
    ensures r.Ok? ==> ("time" in Keys(r.value.parameters) <==> time != Default)
    ensures r.Ok? && time != Default ==> Lookup(r.value.parameters, "time") == Some(TimestampValue(time))
    ensures r.Ok? ==> Lookup(r.value.parameters, "icao24") == Some(Sequence([Text(icao24)]))
    ensures r.Ok? ==> forall k | k in RegionKeys :: k !in Keys(r.value.parameters)
  {
    assert Texts([icao24]) == [Text(icao24)];
    GetStates(Some([icao24]), time, None, now)
  }

  function MyStatesParameters(icao24s: Option<seq<Option<string>>>, time: DateTime, serials: Option<seq<Int32>>): Dictionary {
    TimeParameter(time)
      + Icao24Parameter(icao24s)
      + (if serials.Some? then [("serials", Scalar(Int32ArrayTypeName))] else [])
  }

  lemma MyStatesKeysInOrder(kt: seq<string>, ka: seq<string>, ks: seq<string>)
    requires kt == [] || kt == ["time"]
    requires ka == [] || ka == ["icao24"]
    requires ks == [] || ks == ["serials"]
    ensures IsSubsequence(kt + ka + ks, MyStatesKeyOrder)
    ensures Distinct(kt + ka + ks)
  {
    assert IsSubsequence(kt + ka, ["time", "icao24"]) by {
      SubsequenceConcat(kt, ka, ["time"], ["icao24"]);
      assert ["time"] + ["icao24"] == ["time", "icao24"];
    }
    SubsequenceConcat(kt + ka, ks, ["time", "icao24"], ["serials"]);
    assert ["time", "icao24"] + ["serials"] == MyStatesKeyOrder;
    assert Distinct(MyStatesKeyOrder);
    SubsequenceOfDistinct(kt + ka + ks, MyStatesKeyOrder);
  }

  lemma MyStatesParametersFacts(icao24s: Option<seq<Option<string>>>, time: DateTime, serials: Option<seq<Int32>>)
    ensures var d := MyStatesParameters(icao24s, time, serials);
      && DistinctKeys(d)
      && IsSubsequence(Keys(d), MyStatesKeyOrder)
      && ("time" in Keys(d) <==> time != Default)
      && (time != Default ==> Lookup(d, "time") == Some(TimestampValue(time)))
      && ("icao24" in Keys(d) <==> icao24s.Some?)
      && (icao24s.Some? ==> Lookup(d, "icao24") == Some(Sequence(Texts(icao24s.value))))
      && ("serials" in Keys(d) <==> serials.Some?)
      && (serials.Some? ==> Lookup(d, "serials") == Some(Scalar(Int32ArrayTypeName)))
  {
    var t := TimeParameter(time);
    var a := Icao24Parameter(icao24s);
    var g: Dictionary := if serials.Some? then [("serials", Scalar(Int32ArrayTypeName))] else [];
    KeysAppend(t, a);
    KeysAppend(t + a, g);
    MyStatesKeysInOrder(Keys(t), Keys(a), Keys(g));
    DistinctKeysFromKeys(t + a + g);
    LookupAppend(t + a, g, "time");
    LookupAppend(t, a, "time");
    LookupAppend(t + a, g, "icao24");
    LookupAppend(t, a, "icao24");
    LookupAppend(t + a, g, "serials");
  }

  /**
   * `GetMyStates`: refused for an anonymous client, with no limit on how far
   * back `time` may be. The tracker serials are an `int[]`, which is not an
   * `IEnumerable<object>`, so they go out as one parameter holding the
   * array's type name.
   */
  function GetMyStates(client: Client, icao24s: Option<seq<Option<string>>>, time: DateTime, serials: Option<seq<Int32>>)
    : (r: Result<Request, Exception>)
    ensures r.Err? <==> !client.isAuthorized
    ensures r.Err? ==> r.error == OpenSky(AnonymousNotAllowed)
    ensures r.Ok? ==> r.value.path == "states/own"
    ensures r.Ok? ==> DistinctKeys(r.value.parameters) && IsSubsequence(Keys(r.value.parameters), MyStatesKeyOrder)
    ensures r.Ok? ==> ("time" in Keys(r.value.parameters) <==> time != Default)
    ensures r.Ok? && time != Default ==> Lookup(r.value.parameters, "time") == Some(TimestampValue(time))
    ensures r.Ok? ==> ("icao24" in Keys(r.value.parameters) <==> icao24s.Some?)
    ensures r.Ok? && icao24s.Some? ==>
              Lookup(r.value.parameters, "icao24") == Some(Sequence(Texts(icao24s.value)))
    ensures r.Ok? ==> ("serials" in Keys(r.value.parameters) <==> serials.Some?)
    ensures r.Ok? && serials.Some? ==> Lookup(r.value.parameters, "serials") == Some(Scalar(Int32ArrayTypeName))
  {
    if !client.isAuthorized then Err(OpenSky(AnonymousNotAllowed))
    else
      MyStatesParametersFacts(icao24s, time, serials);
      Ok(Request("states/own", MyStatesParameters(icao24s, time, serials)))
  }

  /** The URI of a request with two scalar parameters. */
  lemma UriOfTwo(path: string, k1: string, v1: string, k2: string, v2: string)
    ensures Uri(Request(path, [(k1, Scalar(v1)), (k2, Scalar(v2))]))
         == path + "?" + Join('&', [k1 + "=" + v1, k2 + "=" + v2])
  {
    var d: Dictionary := [(k1, Scalar(v1)), (k2, Scalar(v2))];
    assert Segments(d) == [k1 + "=" + v1, k2 + "=" + v2];
  }

  /** The URI of a request with three scalar parameters. */
  lemma UriOfThree(path: string, k1: string, v1: string, k2: string, v2: string, k3: string, v3: string)
    ensures Uri(Request(path, [(k1, Scalar(v1)), (k2, Scalar(v2)), (k3, Scalar(v3))]))
         == path + "?" + Join('&', [k1 + "=" + v1, k2 + "=" + v2, k3 + "=" + v3])
  {
    var d: Dictionary := [(k1, Scalar(v1)), (k2, Scalar(v2)), (k3, Scalar(v3))];
    assert Segments(d) == [k1 + "=" + v1, k2 + "=" + v2, k3 + "=" + v3];
  }

  /** The URI of a request with four scalar parameters. */
  lemma UriOfFour(path: string, k1: string, v1: string, k2: string, v2: string, k3: string, v3: string, k4: string, v4: string)
    ensures Uri(Request(path, [(k1, Scalar(v1)), (k2, Scalar(v2)), (k3, Scalar(v3)), (k4, Scalar(v4))]))
         == path + "?" + Join('&', [k1 + "=" + v1, k2 + "=" + v2, k3 + "=" + v3, k4 + "=" + v4])
  {
    var d: Dictionary := [(k1, Scalar(v1)), (k2, Scalar(v2)), (k3, Scalar(v3)), (k4, Scalar(v4))];
    assert Segments(d) == [k1 + "=" + v1, k2 + "=" + v2, k3 + "=" + v3, k4 + "=" + v4];
  }

  /** `GetFlights(begin, end)`: both ends given and at most two hours apart; a reversed interval passes. */
  function GetFlights(begin: DateTime, end: DateTime): (r: Result<Request, Exception>)
    ensures r.Ok? <==> begin != Default && end != Default && end - begin <= FlightsWindow
    ensures r.Err? ==> r.error == OpenSky(FlightsWindowTooWide)
    ensures r.Ok? ==>
              Uri(r.value) == "flights/all?" + Join('&', [ "begin=" + IntText(ToUnixTimestamp(begin)),
                                                           "end=" + IntText(ToUnixTimestamp(end)) ])
  {
    if begin == Default || end == Default || end - begin > FlightsWindow then Err(OpenSky(FlightsWindowTooWide))
    else
      UriOfTwo("flights/all", "begin", IntText(ToUnixTimestamp(begin)), "end", IntText(ToUnixTimestamp(end)));
      assert "flights/all" + "?" == "flights/all?" && "begin" + "=" == "begin=" && "end" + "=" == "end=";
      Ok(Request("flights/all", [("begin", TimestampValue(begin)), ("end", TimestampValue(end))]))
  }

  /**
   * `GetFlights(end)`: the two hours before `end`. Stepping back throws
   * when `end` is within two hours of year 1; at exactly two hours the
   * beginning is the default instant and the window check refuses it.
   */
  function GetFlightsEndingAt(end: DateTime): (r: Result<Request, Exception>)
    ensures end < FlightsSpan ==> r == Err(ArgumentOutOfRange)
    ensures r.Ok? <==> FlightsSpan < end
    ensures r.Ok? ==>
              Uri(r.value) == "flights/all?" + Join('&', [ "begin=" + IntText(ToUnixTimestamp(end - FlightsSpan)),
                                                           "end=" + IntText(ToUnixTimestamp(end)) ])
  {
    match Subtract(end, FlightsSpan)
    case Err(e) => Err(e)
    case Ok(begin) =>
      assert begin == end - FlightsSpan;
      GetFlights(end - FlightsSpan, end)
  }

  /** The shared shape of the aircraft-flights and airport arrival/departure requests. */
  function IdentifiedInterval(
    path: string, key: string, paramName: string, id: Option<string>,
    begin: DateTime, end: DateTime, window: int, message: string): (r: Result<Request, Exception>)
    ensures IsNullOrWhiteSpace(id) ==> r == Err(ArgumentNull(paramName))
    ensures !IsNullOrWhiteSpace(id) ==> (r.Ok? <==> begin != Default && end != Default && end - begin <= window)
    ensures !IsNullOrWhiteSpace(id) && r.Err? ==> r.error == OpenSky(message)
    ensures r.Ok? ==> id.Some?
    ensures r.Ok? ==>
              Uri(r.value) == path + "?" + Join('&', [ key + "=" + id.value,
                                                       "begin=" + IntText(ToUnixTimestamp(begin)),
                                                       "end=" + IntText(ToUnixTimestamp(end)) ])
  {
    if IsNullOrWhiteSpace(id) then Err(ArgumentNull(paramName))
    else if begin == Default || end == Default || end - begin > window then Err(OpenSky(message))
    else
      UriOfThree(path, key, id.value, "begin", IntText(ToUnixTimestamp(begin)), "end", IntText(ToUnixTimestamp(end)));
      assert "begin" + "=" == "begin=" && "end" + "=" == "end=";
      Ok(Request(path, [(key, Scalar(id.value)), ("begin", TimestampValue(begin)), ("end", TimestampValue(end))]))
  }

  /** `GetFlightsByAircraft(icao24, begin, end)`: identifier first, then a window of at most 30 days. */
  function GetFlightsByAircraft(icao24: Option<string>, begin: DateTime, end: DateTime): (r: Result<Request, Exception>)
    ensures IsNullOrWhiteSpace(icao24) ==> r == Err(ArgumentNull("icao24"))
    ensures !IsNullOrWhiteSpace(icao24) ==>
              (r.Ok? <==> begin != Default && end != Default && end - begin <= AircraftFlightsWindow)
    ensures !IsNullOrWhiteSpace(icao24) && r.Err? ==> r.error == OpenSky(AircraftFlightsWindowTooWide)
    ensures r.Ok? ==> icao24.Some?
    ensures r.Ok? ==>
              Uri(r.value) == "flights/aircraft?" + Join('&', [ "icao24=" + icao24.value,
                                                     "begin=" + IntText(ToUnixTimestamp(begin)),
                                                     "end=" + IntText(ToUnixTimestamp(end)) ])
  {
    assert "flights/aircraft" + "?" == "flights/aircraft?" && "icao24" + "=" == "icao24=";
    IdentifiedInterval("flights/aircraft", "icao24", "icao24", icao24, begin, end, AircraftFlightsWindow, AircraftFlightsWindowTooWide)
  }

  /** `GetFlightsByAircraft(icao24, end)`: the 30 days before `end`; the step back is taken before the identifier is checked. */
  function GetFlightsByAircraftEndingAt(icao24: Option<string>, end: DateTime): (r: Result<Request, Exception>)
    ensures end < AircraftFlightsSpan ==> r == Err(ArgumentOutOfRange)
    ensures AircraftFlightsSpan <= end && IsNullOrWhiteSpace(icao24) ==> r == Err(ArgumentNull("icao24"))
    ensures r.Ok? <==> !IsNullOrWhiteSpace(icao24) && AircraftFlightsSpan < end
    ensures r.Ok? ==> icao24.Some?
    ensures r.Ok? ==>
              Uri(r.value) == "flights/aircraft?" + Join('&', [ "icao24=" + icao24.value,
                                                     "begin=" + IntText(ToUnixTimestamp(end - AircraftFlightsSpan)),
                                                     "end=" + IntText(ToUnixTimestamp(end)) ])
  {
    match Subtract(end, AircraftFlightsSpan)
    case Err(e) => Err(e)
    case Ok(begin) =>
      assert begin == end - AircraftFlightsSpan;
      GetFlightsByAircraft(icao24, end - AircraftFlightsSpan, end)
  }

  /** `GetAirportArrivals(icao, begin, end)`: identifier first, then a window of at most 7 days. */
  function GetAirportArrivals(icao: Option<string>, begin: DateTime, end: DateTime): (r: Result<Request, Exception>)
    ensures IsNullOrWhiteSpace(icao) ==> r == Err(ArgumentNull("icao"))
    ensures !IsNullOrWhiteSpace(icao) ==>
              (r.Ok? <==> begin != Default && end != Default && end - begin <= AirportFlightsWindow)
    ensures !IsNullOrWhiteSpace(icao) && r.Err? ==> r.error == OpenSky(AirportFlightsWindowTooWide)
    ensures r.Ok? ==> icao.Some?
    ensures r.Ok? ==>
              Uri(r.value) == "flights/arrival?" + Join('&', [ "airport=" + icao.value,
                                                     "begin=" + IntText(ToUnixTimestamp(begin)),
                                                     "end=" + IntText(ToUnixTimestamp(end)) ])
  {
    assert "flights/arrival" + "?" == "flights/arrival?" && "airport" + "=" == "airport=";
    IdentifiedInterval("flights/arrival", "airport", "icao", icao, begin, end, AirportFlightsWindow, AirportFlightsWindowTooWide)
  }

  /** `GetAirportArrivals(icao, end)`: the 7 days before `end`; the step back is taken before the identifier is checked. */
  function GetAirportArrivalsEndingAt(icao: Option<string>, end: DateTime): (r: Result<Request, Exception>)
    ensures end < AirportFlightsSpan ==> r == Err(ArgumentOutOfRange)
    ensures AirportFlightsSpan <= end && IsNullOrWhiteSpace(icao) ==> r == Err(ArgumentNull("icao"))
    ensures r.Ok? <==> !IsNullOrWhiteSpace(icao) && AirportFlightsSpan < end
    ensures r.Ok? ==> icao.Some?
    ensures r.Ok? ==>
              Uri(r.value) == "flights/arrival?" + Join('&', [ "airport=" + icao.value,
                                                     "begin=" + IntText(ToUnixTimestamp(end - AirportFlightsSpan)),
                                                     "end=" + IntText(ToUnixTimestamp(end)) ])
  {
    match Subtract(end, AirportFlightsSpan)
    case Err(e) => Err(e)
    case Ok(begin) =>
      assert begin == end - AirportFlightsSpan;
      GetAirportArrivals(icao, end - AirportFlightsSpan, end)
  }

  /** `GetAirportDepartures(icao, begin, end)`: identifier first, then a window of at most 7 days. */
  function GetAirportDepartures(icao: Option<string>, begin: DateTime, end: DateTime): (r: Result<Request, Exception>)
    ensures IsNullOrWhiteSpace(icao) ==> r == Err(ArgumentNull("icao"))
    ensures !IsNullOrWhiteSpace(icao) ==>
              (r.Ok? <==> begin != Default && end != Default && end - begin <= AirportFlightsWindow)
    ensures !IsNullOrWhiteSpace(icao) && r.Err? ==> r.error == OpenSky(AirportFlightsWindowTooWide)
    ensures r.Ok? ==> icao.Some?
    ensures r.Ok? ==>
              Uri(r.value) == "flights/departure?" + Join('&', [ "airport=" + icao.value,
                                                     "begin=" + IntText(ToUnixTimestamp(begin)),
                                                     "end=" + IntText(ToUnixTimestamp(end)) ])
  {
    assert "flights/departure" + "?" == "flights/departure?" && "airport" + "=" == "airport=";
    IdentifiedInterval("flights/departure", "airport", "icao", icao, begin, end, AirportFlightsWindow, AirportFlightsWindowTooWide)
  }

  /** `GetAirportDepartures(icao, end)`: the 7 days before `end`; the step back is taken before the identifier is checked. */
  function GetAirportDeparturesEndingAt(icao: Option<string>, end: DateTime): (r: Result<Request, Exception>)
    ensures end < AirportFlightsSpan ==> r == Err(ArgumentOutOfRange)
    ensures AirportFlightsSpan <= end && IsNullOrWhiteSpace(icao) ==> r == Err(ArgumentNull("icao"))
    ensures r.Ok? <==> !IsNullOrWhiteSpace(icao) && AirportFlightsSpan < end
    ensures r.Ok? ==> icao.Some?
    ensures r.Ok? ==>
              Uri(r.value) == "flights/departure?" + Join('&', [ "airport=" + icao.value,
                                                     "begin=" + IntText(ToUnixTimestamp(end - AirportFlightsSpan)),
                                                     "end=" + IntText(ToUnixTimestamp(end)) ])
  {
    match Subtract(end, AirportFlightsSpan)
    case Err(e) => Err(e)
    case Ok(begin) =>
      assert begin == end - AirportFlightsSpan;
      GetAirportDepartures(icao, end - AirportFlightsSpan, end)
  }

  /**
   * `GetTrackByAircraft`: identifier first, then `time` may be at most 30
   * days before `now`, a default `time` included. The `0` sent for a
   * default `time` is kept as written.
   */
  function GetTrackByAircraft(icao24: Option<string>, time: DateTime, now: DateTime): (r: Result<Request, Exception>)
    ensures IsNullOrWhiteSpace(icao24) ==> r == Err(ArgumentNull("icao24"))
    ensures !IsNullOrWhiteSpace(icao24) ==> (r.Ok? <==> now - time <= TrackWindow)
    ensures !IsNullOrWhiteSpace(icao24) && r.Err? ==> r.error == OpenSky(TrackTooOld)
    ensures r.Ok? ==> icao24.Some?
    ensures r.Ok? ==>
              Uri(r.value) == "tracks/all?" + Join('&', [ "icao24=" + icao24.value,
                                                          "time=" + IntText(if time == Default then 0 else ToUnixTimestamp(time)) ])
  {
    if IsNullOrWhiteSpace(icao24) then Err(ArgumentNull("icao24"))
    else if now - time > TrackWindow then Err(OpenSky(TrackTooOld))
    else
      var unixTime := if time == Default then 0 else ToUnixTimestamp(time);
      UriOfTwo("tracks/all", "icao24", icao24.value, "time", IntText(unixTime));
      assert "tracks/all" + "?" == "tracks/all?" && "icao24" + "=" == "icao24=" && "time" + "=" == "time=";
      Ok(Request("tracks/all", [("icao24", Scalar(icao24.value)), ("time", Scalar(IntText(unixTime)))]))
  }

  /** `GetAircraftRegistration`: the identifier becomes the last path segment, with no query. */
  function GetAircraftRegistration(icao24: Option<string>): (r: Result<Request, Exception>)
    ensures r.Err? <==> IsNullOrWhiteSpace(icao24)
    ensures r.Err? ==> r.error == ArgumentNull("icao24")
    ensures r.Ok? ==> icao24.Some? && r.value.parameters == []
    ensures r.Ok? ==> Uri(r.value) == "metadata/aircraft/icao/" + icao24.value
  {
    if IsNullOrWhiteSpace(icao24) then Err(ArgumentNull("icao24"))
    else Ok(Request("metadata/aircraft/icao/" + icao24.value, []))
  }

  /** The parameters the search string spells out by hand. */
  function SearchParameters(search: string, amount: Int32): Dictionary {
    [("n", Scalar(IntText(amount))), ("p", Scalar("1")), ("q", Scalar(search))]
  }

  /** The interpolated search query reads as `n`, `p` and `q`, in that order. */
  lemma SearchQueryText(search: string, amount: Int32)
    ensures "?n=" + IntText(amount) + "&p=1&q=" + search == CreateQuery(Some(SearchParameters(search, amount)))
  {
    var a := IntText(amount);
    var x := "n=" + a;
    var d := SearchParameters(search, amount);
    assert "p" + "=" + "1" == "p=1" && "n" + "=" == "n=" && "q" + "=" == "q=";
    assert Segments(d) == [x, "p=1", "q=" + search];
    assert Join('&', ["q=" + search]) == "q=" + search;
    assert Join('&', ["p=1", "q=" + search]) == "p=1" + "&" + ("q=" + search);
    calc {
      Join('&', [x, "p=1", "q=" + search]);
      x + "&" + ("p=1" + "&" + ("q=" + search));
      { assert "p=1" + "&" == "p=1&"; Associative("p=1&", "q=", search); assert "p=1&" + "q=" == "p=1&q="; }
      x + "&" + ("p=1&q=" + search);
      { Associative(x + "&", "p=1&q=", search); }
      (x + "&" + "p=1&q=") + search;
      { Associative(x, "&", "p=1&q="); assert "&" + "p=1&q=" == "&p=1&q="; }
      x + "&p=1&q=" + search;
    }
    calc {
      CreateQuery(Some(d));
      "?" + Join('&', Segments(d));
      "?" + ((x + "&p=1&q=") + search);
      { Associative("?", x + "&p=1&q=", search); }
      ("?" + (x + "&p=1&q=")) + search;
      { Associative("?", x, "&p=1&q="); }
      (("?" + x) + "&p=1&q=") + search;
      { Associative("?", "n=", a); assert "?" + "n=" == "?n="; }
      "?n=" + a + "&p=1&q=" + search;
    }
  }

  /**
   * `GetAircraftSearch`: the count and the search term are interpolated into
   * a fixed query asking for page 1; the text equals what `CreateQuery`
   * renders for `n`, `p` and `q`.
   */
  function GetAircraftSearch(search: Option<string>, amount: Int32): (r: Result<Request, Exception>)
    ensures r.Err? <==> IsNullOrWhiteSpace(search)
    ensures r.Err? ==> r.error == ArgumentNull("search")
    ensures r.Ok? ==> search.Some?
    ensures r.Ok? ==> Uri(r.value) == "metadata/aircraft/list" + CreateQuery(Some(SearchParameters(search.value, amount)))
  {
    if IsNullOrWhiteSpace(search) then Err(ArgumentNull("search"))
    else
      SearchQueryText(search.value, amount);
      assert "metadata/aircraft/list?n=" == "metadata/aircraft/list" + "?n=";
      Ok(Request("metadata/aircraft/list?n=" + IntText(amount) + "&p=1&q=" + search.value, []))
  }

  /** `GetAirportInfo`: the code is interpolated as the single `icao` parameter. */
  function GetAirportInfo(icao: Option<string>): (r: Result<Request, Exception>)
    ensures r.Err? <==> IsNullOrWhiteSpace(icao)
    ensures r.Err? ==> r.error == ArgumentNull("icao")
    ensures r.Ok? ==> icao.Some?
    ensures r.Ok? ==> Uri(r.value) == "airports" + CreateQuery(Some([("icao", Scalar(icao.value))]))
  {
    if IsNullOrWhiteSpace(icao) then Err(ArgumentNull("icao"))
    else
      CreateQuerySingle(("icao", Scalar(icao.value)));
      Associative("airports", "?icao=", icao.value);
      assert "airports?icao=" == "airports" + "?icao=";
      Associative("?", "icao=", icao.value);
      assert "?" + "icao=" == "?icao=";
      Ok(Request("airports?icao=" + icao.value, []))
  }

  /** `GetAirportsByRegion`: a null region throws; otherwise its four bounds, unchecked, in the order lamin, lomin, lamax, lomax. */
  function GetAirportsByRegion(region: Option<Region>): (r: Result<Request, Exception>)
    ensures r.Err? <==> region.None?
    ensures r.Err? ==> r.error == ArgumentNull("region")
    ensures r.Ok? ==> region.Some?
    ensures r.Ok? ==>
              Uri(r.value) == "airports/region?" + Join('&', [ "lamin=" + region.value.minLatitude.text,
                                                               "lomin=" + region.value.minLongitude.text,
                                                               "lamax=" + region.value.maxLatitude.text,
                                                               "lomax=" + region.value.maxLongitude.text ])
  {
    if region.None? then Err(ArgumentNull("region"))
    else
      var g := region.value;
      UriOfFour("airports/region", "lamin", g.minLatitude.text, "lomin", g.minLongitude.text,
                "lamax", g.maxLatitude.text, "lomax", g.maxLongitude.text);
      assert "airports/region" + "?" == "airports/region?";
      assert "lamin" + "=" == "lamin=" && "lomin" + "=" == "lomin=";
      assert "lamax" + "=" == "lamax=" && "lomax" + "=" == "lomax=";
      Ok(Request("airports/region", RegionParameters(g)))
  }
}
