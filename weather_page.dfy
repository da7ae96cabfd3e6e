/** The weather-forecast page: the stored forecast days, the refresh button
    that asks the forecast function for new ones, and the irrigation advice
    drawn from the first day. */
module WeatherPage {
  import opened Wrappers
  import Forecast
  import OpenMeteo

  /** The three irrigation messages: low rainfall (irrigate), moderate
      rainfall (monitor soil moisture), good rainfall (skip irrigation). */
  datatype Advice = IrrigateAdvice | MonitorAdvice | SkipAdvice

  datatype Toast = ErrorToast(message: string) | SuccessToast(message: string)

  /** A stored precipitation as the comparisons read it: a null column
      compares as 0. */
  function Rain(p: Option<real>): real {
    if p.Some? then p.value else 0.0
  }

  /** The messages rendered for a first day's precipitation: each of the
      three is its own condition. */
  function AdviceFor(p: Option<real>): seq<Advice> {
    var v := Rain(p);
    (if v < 5.0 then [IrrigateAdvice] else [])
    + (if v >= 5.0 && v < 15.0 then [MonitorAdvice] else [])
    + (if v >= 15.0 then [SkipAdvice] else [])
  }

  /** The advice block: nothing without forecast days, otherwise the
      messages for the first day. */
  function IrrigationAdvice(days: seq<Forecast.ForecastRecord>): seq<Advice> {
    if days == [] then [] else AdviceFor(days[0].precipitation)
  }

  /** How strongly a message asks for water. */
  function Urgency(a: Advice): nat {
    match a
    case IrrigateAdvice => 2
    case MonitorAdvice => 1
    case SkipAdvice => 0
  }

  /** The page's state: the days shown and the busy flag. */
  class ForecastPage {
    var days: seq<Forecast.ForecastRecord>
    var loading: bool

    constructor ()
      ensures days == [] && !loading
    {
      days := [];
      loading := false;
    }

    /** `refreshForecast`: the busy flag is raised while the forecast
        function runs and cleared whatever its outcome. `invokeError` is the
        failed call's message from the client library, absent on success;
        `fetched` is what the page's query for the coming days returns. */
    method Refresh(invokeError: Option<string>, fetched: seq<Forecast.ForecastRecord>) returns (toast: Toast)
      modifies this
      ensures !loading
      ensures invokeError.None? ==> toast == SuccessToast("Weather forecast updated!") && days == fetched
      ensures invokeError.Some? ==>
        toast == ErrorToast(if invokeError.value != "" then invokeError.value else "Failed to fetch weather forecast")
        && days == old(days)
    {
      loading := true;
      if invokeError.None? {
        toast := SuccessToast("Weather forecast updated!");
        days := fetched;
      } else {
        toast := ErrorToast(if invokeError.value != "" then invokeError.value else "Failed to fetch weather forecast");
      }
      loading := false;
    }
  }

  // ---------------------------------------------------------------------
  // Properties

  /** No forecast days, no advice; otherwise exactly one message, chosen by
      the thresholds 5 and 15 on the first day's precipitation, a missing
      value counting as no rain. */
  lemma OneAdvice(days: seq<Forecast.ForecastRecord>)
    ensures days == [] ==> IrrigationAdvice(days) == []
    ensures days != [] ==> |IrrigationAdvice(days)| == 1
    ensures days != [] ==> var p := Rain(days[0].precipitation);
      && (IrrigationAdvice(days)[0] == IrrigateAdvice <==> p < 5.0)
      && (IrrigationAdvice(days)[0] == MonitorAdvice <==> 5.0 <= p < 15.0)
      && (IrrigationAdvice(days)[0] == SkipAdvice <==> p >= 15.0)
  {
  }

  /** More rain on the first day never makes the advice more urgent. */
  lemma WetterIsCalmer(p: real, q: real)
    requires p <= q
    ensures Urgency(AdviceFor(Some(p))[0]) >= Urgency(AdviceFor(Some(q))[0])
  {
  }

  /** A first day the forecast function labelled sunny always asks for
      irrigation, and one it labelled rainy never does. */
  lemma LabelAndAdvice(userId: string, d: OpenMeteo.Daily, i: nat)
    requires i < |d.time|
    ensures var r := Forecast.ForecastRecords(userId, d)[i];
      && (r.conditions == Forecast.Sunny ==> AdviceFor(r.precipitation) == [IrrigateAdvice])
      && (r.conditions == Forecast.Rainy ==> AdviceFor(r.precipitation) != [IrrigateAdvice])
  {
    Forecast.RecordFields(userId, d, i);
    var r := Forecast.ForecastRecords(userId, d)[i];
    if r.conditions == Forecast.Rainy {
      assert Rain(r.precipitation) > 10.0;
      assert AdviceFor(r.precipitation) == [SkipAdvice] || AdviceFor(r.precipitation) == [MonitorAdvice];
    }
  }
}
