/**
 * Properties that relate several client operations, or an operation to what
 * the reference reading `ParseQuery` finds in its query string.
 */
module ClientProperties {
  import opened Wrappers
  import opened Clr
  import opened Calendar
  import opened DateTimes
  import opened DateTimeExtensions
  import opened Utils
  import opened QueryParsing
  import opened OpenSkyClient

  /** A decimal integer holds neither query separator. */
  lemma IntTextIsPlain(n: int)
    ensures '&' !in IntText(n) && '=' !in IntText(n)
  {
    var s := IntText(n);
    assert forall i | 0 <= i < |s| :: s[i] != '&' && s[i] != '=' by {
      forall i | 0 <= i < |s| ensures s[i] != '&' && s[i] != '=' {
        assert IsDigit(s[i]) || s[i] == '-';
      }
    }
  }

  /**
   * Reading back the query of a `GetFlights` request finds `begin` and then
   * `end`, which parse back to the Unix timestamps of the two instants.
   */
  lemma FlightsQueryDecodes(begin: DateTime, end: DateTime)
    requires begin != Default && end != Default && end - begin <= FlightsWindow
    ensures var pairs := ParseQuery(CreateQuery(Some(GetFlights(begin, end).value.parameters)));
      && |pairs| == 2
      && pairs[0].0 == "begin" && ParseInt(pairs[0].1) == Some(ToUnixTimestamp(begin))
      && pairs[1].0 == "end" && ParseInt(pairs[1].1) == Some(ToUnixTimestamp(end))
  {
    assert GetFlights(begin, end).value.parameters == [("begin", TimestampValue(begin)), ("end", TimestampValue(end))];
    TimestampsDecode(begin, end);
  }

  /** The query `begin=…&end=…` reads back as the two Unix timestamps. */
  lemma TimestampsDecode(begin: DateTime, end: DateTime)
    ensures var pairs := ParseQuery(CreateQuery(Some([("begin", TimestampValue(begin)), ("end", TimestampValue(end))])));
      && |pairs| == 2
      && pairs[0].0 == "begin" && ParseInt(pairs[0].1) == Some(ToUnixTimestamp(begin))
      && pairs[1].0 == "end" && ParseInt(pairs[1].1) == Some(ToUnixTimestamp(end))
  {
    var b, e := IntText(ToUnixTimestamp(begin)), IntText(ToUnixTimestamp(end));
    var d: Dictionary := [("begin", Scalar(b)), ("end", Scalar(e))];
    IntTextIsPlain(ToUnixTimestamp(begin));
    IntTextIsPlain(ToUnixTimestamp(end));
    assert Unambiguous(d);
    CreateQueryRoundTrip(d);
    ScalarPairs(d);
    IntTextRoundTrip(ToUnixTimestamp(begin));
    IntTextRoundTrip(ToUnixTimestamp(end));
  }

  /** The position of a present key. */
  lemma LookupIndex(d: Dictionary, key: string) returns (k: nat)
    requires key in Keys(d)
    ensures k < |d| && d[k].0 == key && Lookup(d, key) == Some(d[k].1)
    decreases |d|
  {
    if d[0].0 == key {
      k := 0;
    } else {
      assert key in Keys(d[1..]);
      var j := LookupIndex(d[1..], key);
      k := j + 1;
    }
  }

  /** In the parameters of a states request, every aircraft stands for one `icao24` pair of its own. */
  lemma StatesIcao24Occurrences(icao24s: seq<Option<string>>, time: DateTime, region: Option<Region>, now: DateTime)
    requires time == Default || now - time <= StatesWindow
    ensures CountKey(Pairs(GetStates(Some(icao24s), time, region, now).value.parameters), "icao24") == |icao24s|
  {
    var d := GetStates(Some(icao24s), time, region, now).value.parameters;
    var k := LookupIndex(d, "icao24");
    KeyOccurrences(d, k);
  }

  /** A states request for two hours before `now` is refused, as the client tests expect. */
  lemma StatesTwoHoursOldRefused(now: DateTime)
    requires 2 * TicksPerHour < now
    ensures GetStates(None, now - 2 * TicksPerHour, None, now) == Err(OpenSky(StatesTooOld))
    ensures GetState(Some("abc9f3"), now - 2 * TicksPerHour, now).Err?
  {
  }

  /** Exactly one hour back is still accepted; one tick more is refused. */
  lemma StatesWindowEdge(now: DateTime)
    requires StatesWindow + 1 < now
    ensures GetStates(None, now - StatesWindow, None, now).Ok?
    ensures GetStates(None, now - StatesWindow - 1, None, now) == Err(OpenSky(StatesTooOld))
  {
  }

  /** The default `time` means "now" for states: it is never refused, whatever `now` is. */
  lemma StatesDefaultTimeAccepted(icao24s: Option<seq<Option<string>>>, region: Option<Region>, now: DateTime)
    ensures GetStates(icao24s, Default, region, now).Ok?
    ensures "time" !in Keys(GetStates(icao24s, Default, region, now).value.parameters)
  {
  }

  /** Own states carry no one-hour limit: an authorized client may ask for any instant. */
  lemma MyStatesHaveNoWindow(icao24s: Option<seq<Option<string>>>, time: DateTime, serials: Option<seq<Int32>>)
    ensures GetMyStates(Client(true), icao24s, time, serials).Ok?
    ensures GetMyStates(NewClient(), icao24s, time, serials) == Err(OpenSky(AnonymousNotAllowed))
  {
  }

  /**
   * Region bounds are not compared: a box whose minimum exceeds its maximum
   * is sent as given (the client tests expect a throw here).
   */
  lemma InvertedRegionAccepted(region: Region, now: DateTime)
    requires region.minLatitude.degrees > region.maxLatitude.degrees
    requires region.minLongitude.degrees > region.maxLongitude.degrees
    ensures GetStates(None, Default, Some(region), now).Ok?
    ensures GetAirportsByRegion(Some(region)).Ok?
  {
  }

  /**
   * The one-argument flights call is the two-argument call on the two hours
   * before `end`, once stepping back two hours stays within year 1.
   */
  lemma FlightsEndingAtIsLastTwoHours(end: DateTime)
    ensures GetFlightsEndingAt(end) ==
              if end < FlightsSpan then Err(ArgumentOutOfRange) else GetFlights(end - FlightsSpan, end)
  {
  }

  /** A two-hour window is the widest `GetFlights` accepts, and a reversed interval is not refused. */
  lemma FlightsWindowEdges(begin: DateTime)
    requires Default < begin && begin + FlightsWindow + 1 <= MaxTicks
    ensures GetFlights(begin, begin + FlightsWindow).Ok?
    ensures GetFlights(begin, begin + FlightsWindow + 1) == Err(OpenSky(FlightsWindowTooWide))
    ensures GetFlights(begin + FlightsWindow, begin).Ok?
  {
  }

  /** Arrivals and departures differ only in the endpoint. */
  lemma ArrivalsAndDeparturesAgree(icao: Option<string>, begin: DateTime, end: DateTime)
    ensures GetAirportArrivals(icao, begin, end).Ok? <==> GetAirportDepartures(icao, begin, end).Ok?
    ensures GetAirportArrivals(icao, begin, end).Err? ==>
              GetAirportArrivals(icao, begin, end) == GetAirportDepartures(icao, begin, end)
    ensures GetAirportArrivals(icao, begin, end).Ok? ==>
              GetAirportArrivals(icao, begin, end).value.parameters
              == GetAirportDepartures(icao, begin, end).value.parameters
  {
  }

  /** The query of a request reads back as its parameters' pairs, whenever they are unambiguous. */
  lemma UriReadsBack(request: Request)
    requires Unambiguous(request.parameters)
    ensures ParseQuery(Uri(request)[|request.path|..]) == Pairs(request.parameters)
  {
    assert Uri(request)[|request.path|..] == CreateQuery(Some(request.parameters));
    CreateQueryRoundTrip(request.parameters);
  }

  /**
   * Reading back a states query finds one `icao24` pair per aircraft,
   * carrying that aircraft's text, in the order given.
   */
  lemma StatesIcao24QueryDecodes(icao24s: seq<Option<string>>, time: DateTime, region: Option<Region>, now: DateTime)
    requires forall i | 0 <= i < |icao24s| :: '&' !in Text(icao24s[i])
    requires region.Some? ==> PlainRegion(region.value)
    requires time == Default || now - time <= StatesWindow
    ensures var pairs := ParseQuery(CreateQuery(Some(GetStates(Some(icao24s), time, region, now).value.parameters)));
      && ValuesOf(pairs, "icao24") == Texts(icao24s)
      && CountKey(pairs, "icao24") == |icao24s|
  {
    GetStatesParameters(Some(icao24s), time, region, now);
    StatesParametersIcao24Decode(icao24s, time, region);
  }

  lemma StatesParametersIcao24Decode(icao24s: seq<Option<string>>, time: DateTime, region: Option<Region>)
    requires forall i | 0 <= i < |icao24s| :: '&' !in Text(icao24s[i])
    requires region.Some? ==> PlainRegion(region.value)
    ensures var pairs := ParseQuery(CreateQuery(Some(StatesParameters(Some(icao24s), time, region))));
      && ValuesOf(pairs, "icao24") == Texts(icao24s)
      && CountKey(pairs, "icao24") == |icao24s|
  {
    var d := StatesParameters(Some(icao24s), time, region);
    StatesParametersUnambiguous(icao24s, time, region);
    CreateQueryRoundTrip(d);
    StatesParametersOrdered(Some(icao24s), time, region);
    StatesParametersIcao24(Some(icao24s), time, region);
    var k := LookupIndex(d, "icao24");
    KeyValues(d, k);
    ValuesOfLength(Pairs(d), "icao24");
  }

  lemma GetStatesParameters(icao24s: Option<seq<Option<string>>>, time: DateTime, region: Option<Region>, now: DateTime)
    requires time == Default || now - time <= StatesWindow
    ensures GetStates(icao24s, time, region, now).Ok?
    ensures GetStates(icao24s, time, region, now).value.parameters == StatesParameters(icao24s, time, region)
  {
  }

  /** States parameters read back unambiguously when the aircraft and the bounds hold no `&`. */
  lemma StatesParametersUnambiguous(icao24s: seq<Option<string>>, time: DateTime, region: Option<Region>)
    requires forall i | 0 <= i < |icao24s| :: '&' !in Text(icao24s[i])
    requires region.Some? ==> PlainRegion(region.value)
    ensures Unambiguous(StatesParameters(Some(icao24s), time, region))
  {
    var t := TimeParameter(time);
    var a := Icao24Parameter(Some(icao24s));
    var g := OptionalRegionParameters(region);
    TimeParameterPlain(time);
    assert Unambiguous(a);
    RegionParametersPlain(region);
    UnambiguousAppend(t, a);
    UnambiguousAppend(t + a, g);
  }

  lemma TimeParameterPlain(time: DateTime)
    ensures Unambiguous(TimeParameter(time))
  {
    if time != Default {
      IntTextIsPlain(ToUnixTimestamp(time));
    }
  }

  lemma RegionParametersPlain(region: Option<Region>)
    requires region.Some? ==> PlainRegion(region.value)
    ensures Unambiguous(OptionalRegionParameters(region))
  {
    if region.Some? {
      assert OptionalRegionParameters(region) == RegionParameters(region.value);
      RegionPlain(region.value);
    }
  }

  lemma RegionPlain(region: Region)
    requires PlainRegion(region)
    ensures Unambiguous(RegionParameters(region))
  {
    var d := RegionParameters(region);
    assert d[0] == ("lamin", Scalar(region.minLatitude.text));
    assert d[1] == ("lomin", Scalar(region.minLongitude.text));
    assert d[2] == ("lamax", Scalar(region.maxLatitude.text));
    assert d[3] == ("lomax", Scalar(region.maxLongitude.text));
  }

  /** Region bounds whose texts hold no `&`. */
  predicate PlainRegion(region: Region) {
    && '&' !in region.minLatitude.text && '&' !in region.minLongitude.text
    && '&' !in region.maxLatitude.text && '&' !in region.maxLongitude.text
  }

  /** The region parameters read back as the four bound texts. */
  lemma RegionParametersDecode(region: Region)
    requires PlainRegion(region)
    ensures ParseQuery(CreateQuery(Some(RegionParameters(region))))
         == [ ("lamin", region.minLatitude.text), ("lomin", region.minLongitude.text),
              ("lamax", region.maxLatitude.text), ("lomax", region.maxLongitude.text) ]
  {
    var d := RegionParameters(region);
    RegionPlain(region);
    CreateQueryRoundTrip(d);
    ScalarPairs(d);
  }

  /** Reading back a region query finds the four bounds, in the order lamin, lomin, lamax, lomax. */
  lemma RegionQueryDecodes(region: Region)
    requires PlainRegion(region)
    ensures ParseQuery(CreateQuery(Some(GetAirportsByRegion(Some(region)).value.parameters)))
         == [ ("lamin", region.minLatitude.text), ("lomin", region.minLongitude.text),
              ("lamax", region.maxLatitude.text), ("lomax", region.maxLongitude.text) ]
  {
    assert GetAirportsByRegion(Some(region)).value.parameters == RegionParameters(region);
    RegionParametersDecode(region);
  }

  /**
   * The identified-interval query `key=id&begin=…&end=…` reads back as the
   * identifier and the two Unix timestamps.
   */
  lemma IntervalQueryDecodes(key: string, id: string, begin: DateTime, end: DateTime)
    requires '&' !in key && '=' !in key && '&' !in id
    ensures var pairs := ParseQuery(CreateQuery(Some([(key, Scalar(id)), ("begin", TimestampValue(begin)), ("end", TimestampValue(end))])));
      && |pairs| == 3
      && pairs[0] == (key, id)
      && pairs[1].0 == "begin" && ParseInt(pairs[1].1) == Some(ToUnixTimestamp(begin))
      && pairs[2].0 == "end" && ParseInt(pairs[2].1) == Some(ToUnixTimestamp(end))
  {
    var b, e := IntText(ToUnixTimestamp(begin)), IntText(ToUnixTimestamp(end));
    var d: Dictionary := [(key, Scalar(id)), ("begin", Scalar(b)), ("end", Scalar(e))];
    IntTextIsPlain(ToUnixTimestamp(begin));
    IntTextIsPlain(ToUnixTimestamp(end));
    assert Unambiguous(d);
    CreateQueryRoundTrip(d);
    ScalarPairs(d);
    IntTextRoundTrip(ToUnixTimestamp(begin));
    IntTextRoundTrip(ToUnixTimestamp(end));
  }

  /** Reading back an aircraft-flights query finds the aircraft and the two Unix timestamps. */
  lemma AircraftFlightsQueryDecodes(icao24: Option<string>, begin: DateTime, end: DateTime)
    requires icao24.Some? && '&' !in icao24.value
    requires !IsNullOrWhiteSpace(icao24)
    requires begin != Default && end != Default && end - begin <= AircraftFlightsWindow
    ensures var pairs := ParseQuery(CreateQuery(Some(GetFlightsByAircraft(icao24, begin, end).value.parameters)));
      && |pairs| == 3
      && pairs[0] == ("icao24", icao24.value)
      && pairs[1].0 == "begin" && ParseInt(pairs[1].1) == Some(ToUnixTimestamp(begin))
      && pairs[2].0 == "end" && ParseInt(pairs[2].1) == Some(ToUnixTimestamp(end))
  {
    assert GetFlightsByAircraft(icao24, begin, end).value.parameters
        == [("icao24", Scalar(icao24.value)), ("begin", TimestampValue(begin)), ("end", TimestampValue(end))];
    IntervalQueryDecodes("icao24", icao24.value, begin, end);
  }

  /** Reading back an arrivals query finds the airport and the two Unix timestamps. */
  lemma ArrivalsQueryDecodes(icao: Option<string>, begin: DateTime, end: DateTime)
    requires icao.Some? && '&' !in icao.value
    requires !IsNullOrWhiteSpace(icao)
    requires begin != Default && end != Default && end - begin <= AirportFlightsWindow
    ensures var pairs := ParseQuery(CreateQuery(Some(GetAirportArrivals(icao, begin, end).value.parameters)));
      && |pairs| == 3
      && pairs[0] == ("airport", icao.value)
      && pairs[1].0 == "begin" && ParseInt(pairs[1].1) == Some(ToUnixTimestamp(begin))
      && pairs[2].0 == "end" && ParseInt(pairs[2].1) == Some(ToUnixTimestamp(end))
  {
    assert GetAirportArrivals(icao, begin, end).value.parameters
        == [("airport", Scalar(icao.value)), ("begin", TimestampValue(begin)), ("end", TimestampValue(end))];
    IntervalQueryDecodes("airport", icao.value, begin, end);
  }

  /** Reading back a departures query finds the airport and the two Unix timestamps. */
  lemma DeparturesQueryDecodes(icao: Option<string>, begin: DateTime, end: DateTime)
    requires icao.Some? && '&' !in icao.value
    requires !IsNullOrWhiteSpace(icao)
    requires begin != Default && end != Default && end - begin <= AirportFlightsWindow
    ensures var pairs := ParseQuery(CreateQuery(Some(GetAirportDepartures(icao, begin, end).value.parameters)));
      && |pairs| == 3
      && pairs[0] == ("airport", icao.value)
      && pairs[1].0 == "begin" && ParseInt(pairs[1].1) == Some(ToUnixTimestamp(begin))
      && pairs[2].0 == "end" && ParseInt(pairs[2].1) == Some(ToUnixTimestamp(end))
  {
    assert GetAirportDepartures(icao, begin, end).value.parameters
        == [("airport", Scalar(icao.value)), ("begin", TimestampValue(begin)), ("end", TimestampValue(end))];
    IntervalQueryDecodes("airport", icao.value, begin, end);
  }

  /**
   * The one-argument aircraft-flights call is the two-argument call on the
   * 30 days before `end`, once stepping back does not throw.
   */
  lemma AircraftFlightsEndingAtIsLast30Days(icao24: Option<string>, end: DateTime)
    ensures GetFlightsByAircraftEndingAt(icao24, end)
         == if end < AircraftFlightsSpan then Err(ArgumentOutOfRange)
            else GetFlightsByAircraft(icao24, end - AircraftFlightsSpan, end)
  {
  }

  /** The one-argument arrivals call is the two-argument call on the 7 days before `end`. */
  lemma ArrivalsEndingAtIsLastWeek(icao: Option<string>, end: DateTime)
    ensures GetAirportArrivalsEndingAt(icao, end)
         == if end < AirportFlightsSpan then Err(ArgumentOutOfRange)
            else GetAirportArrivals(icao, end - AirportFlightsSpan, end)
  {
  }

  /** The one-argument departures call is the two-argument call on the 7 days before `end`. */
  lemma DeparturesEndingAtIsLastWeek(icao: Option<string>, end: DateTime)
    ensures GetAirportDeparturesEndingAt(icao, end)
         == if end < AirportFlightsSpan then Err(ArgumentOutOfRange)
            else GetAirportDepartures(icao, end - AirportFlightsSpan, end)
  {
  }

  /** Without an explicit count, a search asks for 50 results of page 1. */
  lemma DefaultSearchQuery(search: Option<string>)
    requires !IsNullOrWhiteSpace(search)
    ensures Uri(GetAircraftSearch(search, DefaultSearchAmount).value) == "metadata/aircraft/list?n=50&p=1&q=" + search.value
  {
    assert IntText(50) == "50" by {
      assert NatText(50) == NatText(5) + [DigitChar(0)];
    }
    assert "metadata/aircraft/list?n=" + "50" + "&p=1&q=" == "metadata/aircraft/list?n=50&p=1&q=";
  }
}
