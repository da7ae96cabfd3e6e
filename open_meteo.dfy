/** The `daily` object of an Open-Meteo forecast reply, as both weather
    functions read it. */
module OpenMeteo {
  import opened Wrappers

  /** The daily series: dates, maximum and minimum temperature, precipitation
      sum, mean relative humidity and maximum wind speed. Nothing makes the
      series as long as `time`. */
  datatype Daily = Daily(
    time: seq<string>, tempMax: seq<real>, tempMin: seq<real>,
    precipitation: seq<real>, humidity: seq<real>, windSpeed: seq<real>)

  /** `xs[i]`, which is `undefined` past the end of the series. */
  function At(xs: seq<real>, i: nat): (r: Option<real>)
    ensures r.Some? <==> i < |xs|
    ensures r.Some? ==> r.value == xs[i]
  {
    if i < |xs| then Some(xs[i]) else None
  }

  /** No date appears twice in `time`. */
  predicate DistinctDates(d: Daily) {
    forall i, j :: 0 <= i < j < |d.time| ==> d.time[i] != d.time[j]
  }
}
