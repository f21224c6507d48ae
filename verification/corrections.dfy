/**
 * Two places where the client's code falls short of its evident intent, each
 * modelled as written (in `OpenSkyClient`) and as intended (here), with a
 * lemma exhibiting the difference:
 * - `GetMyStates` passes its serials as an `int[]`, which `CreateQuery` renders
 *   with `ToString` instead of repeating the key per item, as it does for the
 *   `icao24` list of `GetStates`;
 * - `GetTrackByAircraft` checks the age of a default time too, so its
 *   `time == default ? 0` branch can never be reached.
 */
module Corrections {
  import opened Wrappers
  import opened Clr
  import opened Calendar
  import opened DateTimes
  import opened DateTimeExtensions
  import opened Utils
  import opened QueryParsing
  import opened OpenSkyClient
  import opened ClientProperties

  // ---------------------------------------------------------------------
  // Tracker serials. `CreateQuery` expands only `IEnumerable<object>`
  // values, and an `int[]` is not one, so the serials are sent as the
  // array's type name.

  /** As written, the request ignores which serials were given. */
  lemma SerialsIgnored(serials: seq<Int32>)
    ensures GetMyStates(Client(true), None, Default, Some(serials)).value
         == Request("states/own", [("serials", Scalar(Int32ArrayTypeName))])
  {
  }

  /** As written, any list of serials reads back as the single pair `serials=System.Int32[]`. */
  lemma SerialsCollapsed(serials: seq<Int32>)
    ensures var r := GetMyStates(Client(true), None, Default, Some(serials));
      && r.Ok?
      && ParseQuery(CreateQuery(Some(r.value.parameters))) == [("serials", Int32ArrayTypeName)]
  {
    SerialsIgnored(serials);
    var d: Dictionary := [("serials", Scalar(Int32ArrayTypeName))];
    assert Unambiguous(d);
    CreateQueryRoundTrip(d);
    assert Pairs(d) == [("serials", Int32ArrayTypeName)] by {
      assert Pairs(d[1..]) == [] by { assert d[1..] == []; }
    }
  }

  lemma SerialsSegment()
    ensures Segment(("serials", Scalar(Int32ArrayTypeName))) == "serials=System.Int32[]"
  {
    assert "serials" + "=" == "serials=";
  }

  lemma SerialsOnlyUri()
    ensures Uri(Request("states/own", [("serials", Scalar(Int32ArrayTypeName))])) == "states/own?serials=System.Int32[]"
  {
    CreateQuerySingle(("serials", Scalar(Int32ArrayTypeName)));
    SerialsSegment();
    assert "?" + "serials=System.Int32[]" == "?serials=System.Int32[]";
  }

  /** As written, two different tracker lists give the same request URI. */
  lemma SerialsIndistinguishable()
    ensures Uri(GetMyStates(Client(true), None, Default, Some([1])).value) == "states/own?serials=System.Int32[]"
    ensures Uri(GetMyStates(Client(true), None, Default, Some([2, 3])).value) == "states/own?serials=System.Int32[]"
  {
    SerialsIgnored([1]);
    SerialsIgnored([2, 3]);
    SerialsOnlyUri();
  }

  /** Each serial rendered in decimal. */
  function SerialTexts(serials: seq<Int32>): (r: seq<string>)
    ensures |r| == |serials|
    ensures forall i | 0 <= i < |serials| :: ParseInt(r[i]) == Some(serials[i as int])
  {
    if |serials| == 0 then []
    else
      IntTextRoundTrip(serials[0]);
      [IntText(serials[0])] + SerialTexts(serials[1..])
  }

  function ExpandedMyStatesParameters(icao24s: Option<seq<Option<string>>>, time: DateTime, serials: Option<seq<Int32>>)
    : Dictionary
  {
    TimeParameter(time)
      + Icao24Parameter(icao24s)
      + (if serials.Some? then [("serials", Sequence(SerialTexts(serials.value)))] else [])
  }

  lemma ExpandedParametersFacts(icao24s: Option<seq<Option<string>>>, time: DateTime, serials: Option<seq<Int32>>)
    ensures var d := ExpandedMyStatesParameters(icao24s, time, serials);
      && DistinctKeys(d)
      && CountKey(Pairs(d), "serials") == if serials.Some? then |serials.value| else 0
  {
    var d := ExpandedMyStatesParameters(icao24s, time, serials);
    var t := TimeParameter(time);
    var a := Icao24Parameter(icao24s);
    var g: Dictionary := if serials.Some? then [("serials", Sequence(SerialTexts(serials.value)))] else [];
    KeysAppend(t, a);
    KeysAppend(t + a, g);
    MyStatesKeysInOrder(Keys(t), Keys(a), Keys(g));
    DistinctKeysFromKeys(d);
    if serials.Some? {
      assert d[|d| - 1] == ("serials", Sequence(SerialTexts(serials.value)));
      KeyOccurrences(d, |d| - 1);
    } else {
      assert d == t + a;
      PairsAvoidKey(d, "serials");
    }
  }

  /** `GetMyStates` with the serials expanded one `serials` pair per tracker, like the aircraft list. */
  function GetMyStatesCorrected(client: Client, icao24s: Option<seq<Option<string>>>, time: DateTime, serials: Option<seq<Int32>>)
    : (r: Result<Request, Exception>)
    ensures r.Err? <==> !client.isAuthorized
    ensures r.Err? ==> r.error == OpenSky(AnonymousNotAllowed)
    ensures r.Ok? ==> r.value.path == "states/own"
    ensures r.Ok? ==> DistinctKeys(r.value.parameters)
    ensures r.Ok? && serials.Some? ==> CountKey(Pairs(r.value.parameters), "serials") == |serials.value|
    ensures r.Ok? && serials.None? ==> CountKey(Pairs(r.value.parameters), "serials") == 0
  {
    if !client.isAuthorized then Err(OpenSky(AnonymousNotAllowed))
    else
      var d := ExpandedMyStatesParameters(icao24s, time, serials);
      ExpandedParametersFacts(icao24s, time, serials);
      Ok(Request("states/own", d))
  }

  lemma CorrectedSerialsOnly(serials: seq<Int32>)
    ensures GetMyStatesCorrected(Client(true), None, Default, Some(serials)).value.parameters
         == [("serials", Sequence(SerialTexts(serials)))]
  {
  }

  lemma SerialTextsArePlain(serials: seq<Int32>)
    ensures forall j | 0 <= j < |serials| :: '&' !in SerialTexts(serials)[j]
  {
    forall j | 0 <= j < |serials| ensures '&' !in SerialTexts(serials)[j] {
      SerialTextsAreIntTexts(serials, j);
      IntTextIsPlain(serials[j]);
    }
  }

  /** After the correction, the query reads back as exactly the serials that were given, in order. */
  lemma CorrectedSerialsRoundTrip(serials: seq<Int32>)
    ensures var r := GetMyStatesCorrected(Client(true), None, Default, Some(serials));
      && r.Ok?
      && var pairs := ParseQuery(CreateQuery(Some(r.value.parameters)));
      && |pairs| == |serials|
      && forall i | 0 <= i < |serials| :: pairs[i].0 == "serials" && ParseInt(pairs[i].1) == Some(serials[i])
  {
    var items := SerialTexts(serials);
    var d: Dictionary := [("serials", Sequence(items))];
    CorrectedSerialsOnly(serials);
    SerialTextsArePlain(serials);
    assert Unambiguous(d);
    CreateQueryRoundTrip(d);
    assert Pairs(d) == EntryPairs(d[0]) by {
      assert Pairs(d[1..]) == [] by { assert d[1..] == []; }
    }
  }

  lemma {:induction false} SerialTextsAreIntTexts(serials: seq<Int32>, j: nat)
    requires j < |serials|
    ensures SerialTexts(serials)[j] == IntText(serials[j])
    decreases j
  {
    if j > 0 {
      SerialTextsAreIntTexts(serials[1..], j - 1);
    }
  }

  /** Without serials the corrected call sends exactly what the written one does. */
  lemma CorrectionKeepsOtherRequests(client: Client, icao24s: Option<seq<Option<string>>>, time: DateTime)
    ensures GetMyStatesCorrected(client, icao24s, time, None) == GetMyStates(client, icao24s, time, None)
  {
  }

  // ---------------------------------------------------------------------
  // Track time. The default `time` stands for "now" and is meant to be
  // sent as 0, but the 30-day check measures the distance from the
  // default instant (year 1), so it refuses every default call.

  /** As written, a default `time` is refused whenever the clock is past 30 days after year 1. */
  lemma DefaultTrackTimeRefused(icao24: Option<string>, now: DateTime)
    requires !IsNullOrWhiteSpace(icao24)
    requires TrackWindow < now
    ensures GetTrackByAircraft(icao24, Default, now) == Err(OpenSky(TrackTooOld))
  {
  }

  /** Concretely: on 2021-01-01 the live-track request for `abc9f3` is refused. */
  lemma DefaultTrackTimeRefusedIn2021()
    ensures GetTrackByAircraft(Some("abc9f3"), Default, CivilTicks(2021, 1, 1, 0, 0, 0)).Err?
  {
    assert !IsWhiteSpace("abc9f3"[0]);
    DefaultTrackTimeRefused(Some("abc9f3"), CivilTicks(2021, 1, 1, 0, 0, 0));
  }

  /** `GetTrackByAircraft` with the 30-day check applied only to an explicit `time`. */
  function GetTrackByAircraftCorrected(icao24: Option<string>, time: DateTime, now: DateTime): (r: Result<Request, Exception>)
    ensures IsNullOrWhiteSpace(icao24) ==> r == Err(ArgumentNull("icao24"))
    ensures !IsNullOrWhiteSpace(icao24) ==> (r.Ok? <==> time == Default || now - time <= TrackWindow)
    ensures !IsNullOrWhiteSpace(icao24) && r.Err? ==> r.error == OpenSky(TrackTooOld)
    ensures r.Ok? ==> icao24.Some?
    ensures r.Ok? && time == Default ==> Uri(r.value) == "tracks/all?" + Join('&', ["icao24=" + icao24.value, "time=0"])
  {
    if IsNullOrWhiteSpace(icao24) then Err(ArgumentNull("icao24"))
    else if time != Default && now - time > TrackWindow then Err(OpenSky(TrackTooOld))
    else
      var unixTime := if time == Default then 0 else ToUnixTimestamp(time);
      UriOfTwo("tracks/all", "icao24", icao24.value, "time", IntText(unixTime));
      assert "tracks/all" + "?" == "tracks/all?" && "icao24" + "=" == "icao24=";
      assert IntText(0) == "0" && "time" + "=" + "0" == "time=0";
      Ok(Request("tracks/all", [("icao24", Scalar(icao24.value)), ("time", Scalar(IntText(unixTime)))]))
  }

  /** For an explicit `time` the correction changes nothing. */
  lemma TrackCorrectionAgreesOnExplicitTime(icao24: Option<string>, time: DateTime, now: DateTime)
    requires time != Default
    ensures GetTrackByAircraftCorrected(icao24, time, now) == GetTrackByAircraft(icao24, time, now)
  {
  }
}
