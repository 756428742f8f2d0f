/**
 * The two tool handlers of the weather/time agent. Each takes the tool's
 * argument record and returns a result in band, never a Go error.
 *
 * The handlers' foreign inputs are parameters: the outcome of loading the
 * "America/New_York" zone from the time-zone database, and the current
 * instant in that zone already rendered with the layout
 * "2006-01-02 15:04:05 MST-0700".
 */
module Handlers {
  import opened Wrappers
  import opened Text
  import opened CaseFold
  import opened ToolResults

  /** The argument record both tools take: a single `city` field. */
  datatype CityArgs = CityArgs(city: string)

  /** What a handler returns: its result map and Go's second, error, value. */
  datatype HandlerReturn = HandlerReturn(result: ToolResult, err: Option<string>)

  /** The outcome of loading the zone; `err` is the error's rendered text. */
  datatype TzLoad = TzLoaded | TzFailed(err: string)

  /** The one city the handlers know, compared case-insensitively. */
  const KnownCity := "new york"
  const KnownZone := "America/New_York"

  /** The fixed New York report; the two temperatures are named so that they can be located in it. */
  const Celsius := "25 degrees Celsius"
  const Fahrenheit := "77 degrees Fahrenheit"
  const WeatherLead := "The weather in New York is sunny with a temperature of "
  const WeatherReport := WeatherLead + Celsius + " (" + Fahrenheit + ")."

  const WeatherUnknownPrefix := "Weather information for '"
  const WeatherUnknownSuffix := "' is not available."
  const TimeUnknownPrefix := "Sorry, I don't have timezone information for "
  const TimeUnknownSuffix := "."
  const ZoneFailurePrefix := "Failed to load timezone data for " + KnownZone + ": "
  const TimeReportPrefix := "The current time in "
  const TimeReportInfix := " is "

  /** The New York report states the temperature in both scales. */
  lemma WeatherReportTemperatures()
    ensures Contains(WeatherReport, Celsius) && Contains(WeatherReport, Fahrenheit)
  {
    ContainsSuffix(WeatherLead, Celsius);
    ContainsExtend(WeatherLead + Celsius, " (", Celsius);
    ContainsExtend(WeatherLead + Celsius + " (", Fahrenheit, Celsius);
    ContainsExtend(WeatherLead + Celsius + " (" + Fahrenheit, ").", Celsius);
    ContainsSuffix(WeatherLead + Celsius + " (", Fahrenheit);
    ContainsExtend(WeatherLead + Celsius + " (" + Fahrenheit, ").", Fahrenheit);
  }

  predicate IsKnownCity(city: string) {
    EqualFold(city, KnownCity)
  }

  /** The weather handler's message for a city it does not know. */
  function WeatherUnknown(city: string): (msg: string)
    ensures Unwrap(msg, WeatherUnknownPrefix, WeatherUnknownSuffix) == Some(city)
    ensures Contains(msg, city)
  {
    UnwrapWrapped(WeatherUnknownPrefix, city, WeatherUnknownSuffix);
    WrappedContains(WeatherUnknownPrefix, city, WeatherUnknownSuffix);
    WeatherUnknownPrefix + city + WeatherUnknownSuffix
  }

  /** The time handler's message for a city it does not know. */
  function TimeUnknown(city: string): (msg: string)
    ensures Unwrap(msg, TimeUnknownPrefix, TimeUnknownSuffix) == Some(city)
    ensures Contains(msg, city)
  {
    UnwrapWrapped(TimeUnknownPrefix, city, TimeUnknownSuffix);
    WrappedContains(TimeUnknownPrefix, city, TimeUnknownSuffix);
    TimeUnknownPrefix + city + TimeUnknownSuffix
  }

  /** The time handler's message when the zone did not load. */
  function ZoneFailure(err: string): (msg: string)
    ensures StartsWith(msg, ZoneFailurePrefix)
    ensures Unwrap(msg, ZoneFailurePrefix, "") == Some(err)
  {
    UnwrapWrapped(ZoneFailurePrefix, err, "");
    assert ZoneFailurePrefix + err + "" == ZoneFailurePrefix + err;
    ZoneFailurePrefix + err
  }

  /** The time handler's success report. */
  function TimeReport(city: string, now: string): string {
    TimeReportPrefix + city + TimeReportInfix + now
  }

  /**
   * Reads a success report back into the city and the rendered time. The
   * city is as long as KnownCity, since EqualFold only accepts strings of
   * the same length.
   */
  function TimeReportParts(report: string): (r: Option<(string, string)>)
    ensures r.Some? ==> report == TimeReport(r.value.0, r.value.1) && |r.value.0| == |KnownCity|
  {
    var p, n, q := |TimeReportPrefix|, |KnownCity|, |TimeReportInfix|;
    if p + n + q <= |report| && report[..p] == TimeReportPrefix && report[p + n..p + n + q] == TimeReportInfix then
      var city, now := report[p..p + n], report[p + n + q..];
      assert report == report[..p] + report[p..p + n] + report[p + n..p + n + q] + report[p + n + q..];
      Some((city, now))
    else
      None
  }

  /** A report for a city of the known length reads back into its parts. */
  lemma TimeReportRoundTrip(city: string, now: string)
    requires |city| == |KnownCity|
    ensures TimeReportParts(TimeReport(city, now)) == Some((city, now))
  {
    var report := TimeReport(city, now);
    var p, n, q := |TimeReportPrefix|, |KnownCity|, |TimeReportInfix|;
    assert report[..p] == TimeReportPrefix;
    assert report[p..p + n] == city;
    assert report[p + n..p + n + q] == TimeReportInfix;
    assert report[p + n + q..] == now;
  }

  /**
   * getWeather: the fixed report for New York in any casing, otherwise an
   * error naming the city exactly as given.
   */
  function GetWeather(args: CityArgs): (out: HandlerReturn)
    ensures out.err == None
    ensures out.result.Success? <==> IsKnownCity(args.city)
    ensures out.result.Success? ==> out.result.report == WeatherReport
    ensures out.result.Error? ==>
      Unwrap(out.result.message, WeatherUnknownPrefix, WeatherUnknownSuffix) == Some(args.city)
      && Contains(out.result.message, args.city)
  {
    if IsKnownCity(args.city) then
      HandlerReturn(Success(WeatherReport), None)
    else
      HandlerReturn(Error(WeatherUnknown(args.city)), None)
  }

  /**
   * getCurrentTime: an error naming the city unless it is New York in some
   * casing; then an error quoting the load failure if the zone did not
   * load; otherwise a report of the city as given and the rendered time.
   */
  function GetCurrentTime(args: CityArgs, tz: TzLoad, now: string): (out: HandlerReturn)
    ensures out.err == None
    ensures out.result.Success? <==> IsKnownCity(args.city) && tz.TzLoaded?
    ensures !IsKnownCity(args.city) ==>
      Unwrap(out.result.message, TimeUnknownPrefix, TimeUnknownSuffix) == Some(args.city)
      && Contains(out.result.message, args.city)
    ensures IsKnownCity(args.city) && tz.TzFailed? ==>
      StartsWith(out.result.message, ZoneFailurePrefix)
      && Unwrap(out.result.message, ZoneFailurePrefix, "") == Some(tz.err)
    ensures out.result.Success? ==>
      StartsWith(out.result.report, TimeReportPrefix + args.city + TimeReportInfix)
      && TimeReportParts(out.result.report) == Some((args.city, now))
  {
    if !IsKnownCity(args.city) then
      HandlerReturn(Error(TimeUnknown(args.city)), None)
    else if tz.TzFailed? then
      HandlerReturn(Error(ZoneFailure(tz.err)), None)
    else
      TimeReportRoundTrip(args.city, now);
      var report := TimeReport(args.city, now);
      assert report[..|TimeReportPrefix + args.city + TimeReportInfix|] == TimeReportPrefix + args.city + TimeReportInfix;
      HandlerReturn(Success(report), None)
  }

  /** For an unknown city neither the zone database nor the clock affects the result. */
  lemma UnknownCityIgnoresClock(args: CityArgs, tz1: TzLoad, now1: string, tz2: TzLoad, now2: string)
    requires !IsKnownCity(args.city)
    ensures GetCurrentTime(args, tz1, now1) == GetCurrentTime(args, tz2, now2)
    ensures GetCurrentTime(args, tz1, now1).result.Error?
  {
  }

  /** When the zone fails to load, the clock does not affect the result. */
  lemma ZoneFailureIgnoresClock(args: CityArgs, err: string, now1: string, now2: string)
    ensures GetCurrentTime(args, TzFailed(err), now1) == GetCurrentTime(args, TzFailed(err), now2)
    ensures GetCurrentTime(args, TzFailed(err), now1).result.Error?
  {
  }

  /**
   * The two error causes of the time handler stay distinguishable: a
   * message about an unknown city never reads as a zone-load failure.
   */
  lemma TimeErrorsDistinct(city: string)
    ensures !StartsWith(TimeUnknown(city), ZoneFailurePrefix)
  {
    var msg := TimeUnknown(city);
    assert msg == TimeUnknownPrefix + city + TimeUnknownSuffix;
    assert msg[1] == TimeUnknownPrefix[1] == 'o';
    assert ZoneFailurePrefix[1] == 'a';
  }

  /** Both handlers accept exactly the spellings of "new york" in any mix of cases. */
  lemma KnownCitySpellings(city: string)
    ensures IsKnownCity(city) <==>
      |city| == |KnownCity| && forall i :: 0 <= i < |city| ==> FoldKey(city[i]) == KnownCity[i]
  {
    EqualFoldPointwise(city, KnownCity);
    forall i | 0 <= i < |KnownCity| ensures FoldKey(KnownCity[i]) == KnownCity[i] {
      if KnownCity[i] != ' ' {
        FoldKeyOfLower(KnownCity[i]);
      }
    }
  }

  /**
   * What the runtime sees in the result maps: the weather map says
   * "success" exactly for New York in some casing, the time map exactly
   * when, in addition, the zone loaded; every other map says "error" and
   * carries an error message instead of a report.
   */
  lemma HandlersWireStatus(args: CityArgs, tz: TzLoad, now: string)
    ensures ToWire(GetWeather(args).result)[StatusKey] == StatusSuccess <==> IsKnownCity(args.city)
    ensures ToWire(GetWeather(args).result)[StatusKey] == StatusError <==> ErrorKey in ToWire(GetWeather(args).result)
    ensures ToWire(GetCurrentTime(args, tz, now).result)[StatusKey] == StatusSuccess <==>
      IsKnownCity(args.city) && tz.TzLoaded?
    ensures ToWire(GetCurrentTime(args, tz, now).result)[StatusKey] == StatusError <==>
      ErrorKey in ToWire(GetCurrentTime(args, tz, now).result)
  {
  }
}
