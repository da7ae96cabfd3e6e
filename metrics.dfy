/** `calculateMetrics`: the soil-moisture and erosion-risk rows of `metrics`,
    keyed by `(user_id, metric_type)`, derived from the last 60 days of
    Open-Meteo precipitation. */
module Metrics {
  import opened JsText
  import opened JsNumber
  import opened Buckets
  import opened Tables

  datatype MetricType = SoilMoisture | ErosionRisk
  datatype Trend = Up | Down
  datatype Risk = Low | Medium | High

  /** The `value` column: an average in millimetres (shown with one decimal
      and "mm"), or a risk level. */
  datatype MetricValue = Millimetres(mm: Quantity) | Level(risk: Risk)

  /** The `change` column: a percentage (shown with one decimal and "%"), or
      a count of events (shown as "<n> events"). */
  datatype MetricChange = Percent(pct: Quantity) | Events(count: nat)

  datatype MetricRow = MetricRow(value: MetricValue, change: MetricChange, trend: Trend)

  type MetricTable = Table<(string, MetricType), MetricRow>

  /** `precipitation_sum.slice(-30)`: the last 30 days, or all of them. */
  function Recent(p: seq<real>): seq<real> {
    SliceFrom(p, -30)
  }

  /** `precipitation_sum.slice(-60, -30)`: the 30 days before those. */
  function Previous(p: seq<real>): seq<real> {
    Slice(p, -60, -30)
  }

  /** `xs.reduce((sum, val) => sum + val, 0) / xs.length`: NaN (0 / 0) for no days. */
  function Mean(xs: seq<real>): Quantity {
    if xs == [] then NotFinite else Finite(Sum(xs) / |xs| as real)
  }

  /** `avgPrecip > prevAvgPrecip ? 'up' : 'down'`: a comparison with NaN is false. */
  function MoistureTrend(recent: Quantity, previous: Quantity): Trend {
    if recent.Finite? && previous.Finite? && recent.value > previous.value then Up else Down
  }

  function Abs(x: real): real {
    if x < 0.0 then -x else x
  }

  /** `Math.abs(((avgPrecip - prevAvgPrecip) / prevAvgPrecip) * 100)`: NaN or
      Infinity when the previous average is NaN or zero. */
  function PercentChange(recent: Quantity, previous: Quantity): Quantity {
    if recent.Finite? && previous.Finite? && previous.value != 0.0
    then Finite(Abs((recent.value - previous.value) / previous.value * 100.0))
    else NotFinite
  }

  /** `xs.filter(p => p > 20).length`. */
  function HeavyDays(xs: seq<real>): nat {
    if xs == [] then 0 else HeavyDays(xs[..|xs| - 1]) + (if xs[|xs| - 1] > 20.0 then 1 else 0)
  }

  /** `heavyRainDays > 5 ? 'High' : heavyRainDays > 2 ? 'Medium' : 'Low'`. */
  function RiskOf(heavy: nat): Risk {
    if heavy > 5 then High else if heavy > 2 then Medium else Low
  }

  function SoilMoistureRow(p: seq<real>): MetricRow {
    var avg := Mean(Recent(p));
    var prev := Mean(Previous(p));
    MetricRow(Millimetres(avg), Percent(PercentChange(avg, prev)), MoistureTrend(avg, prev))
  }

  function ErosionRiskRow(p: seq<real>): MetricRow {
    var heavy := HeavyDays(Recent(p));
    MetricRow(Level(RiskOf(heavy)), Events(heavy), if heavy > 5 then Up else Down)
  }

  /** The rows a run of `calculateMetrics` for `userId` writes; the source does
      not look at the upserts' errors, so a refused write is simply lost. */
  function MetricWrites(userId: string, p: seq<real>, refused: set<(string, MetricType)>): map<(string, MetricType), MetricRow> {
    var soil := if (userId, SoilMoisture) in refused then map[] else map[(userId, SoilMoisture) := SoilMoistureRow(p)];
    var erosion := if (userId, ErosionRisk) in refused then map[] else map[(userId, ErosionRisk) := ErosionRiskRow(p)];
    soil + erosion
  }

  /** `calculateMetrics(supabase, userId, weatherData, nasaData)`: the soil
      moisture row, then the erosion risk row. */
  method CalculateMetrics(table: MetricTable, userId: string, p: seq<real>)
    modifies table`rows
    ensures table.rows == old(table.rows) + MetricWrites(userId, p, table.refused)
  {
    var recent := Recent(p);
    var avgPrecip := Mean(recent);
    var prevAvgPrecip := Mean(Previous(p));
    var soil := MetricRow(Millimetres(avgPrecip), Percent(PercentChange(avgPrecip, prevAvgPrecip)),
                          MoistureTrend(avgPrecip, prevAvgPrecip));
    var soilWritten := table.Upsert((userId, SoilMoisture), soil);
    var heavy := HeavyDays(recent);
    var erosion := MetricRow(Level(RiskOf(heavy)), Events(heavy), if heavy > 5 then Up else Down);
    var erosionWritten := table.Upsert((userId, ErosionRisk), erosion);
  }

  /** The two windows are adjacent and together are the last 60 days (or all
      of them): the recent one holds the last 30, the previous one the up to
      30 before. */
  lemma WindowsAdjacent(p: seq<real>)
    ensures var n := if |p| < 60 then |p| else 60;
      Previous(p) + Recent(p) == p[|p| - n..]
    ensures |Recent(p)| == if |p| < 30 then |p| else 30
    ensures |Previous(p)| == if |p| <= 30 then 0 else if |p| < 60 then |p| - 30 else 30
  {
    if |p| <= 30 {
      assert Previous(p) == [];
    }
  }

  /** With 30 days or fewer there is no previous window: the trend is "down"
      and the change is not a number. */
  lemma ShortHistory(p: seq<real>)
    requires |p| <= 30
    ensures SoilMoistureRow(p).trend == Down
    ensures SoilMoistureRow(p).change == Percent(NotFinite)
  {
    WindowsAdjacent(p);
  }

  /** Counting heavy days distributes over concatenation. */
  lemma {:induction false} HeavyDaysAppend(a: seq<real>, b: seq<real>)
    ensures HeavyDays(a + b) == HeavyDays(a) + HeavyDays(b)
    decreases |b|
  {
    if b != [] {
      var init := b[..|b| - 1];
      assert (a + b)[..|a + b| - 1] == a + init;
      HeavyDaysAppend(a, init);
    } else {
      assert a + b == a;
    }
  }

  /** A heavy day is one strictly above 20 mm: 20 mm itself is not counted,
      and no more days are counted than there are. */
  lemma HeavyDaysThreshold(xs: seq<real>)
    ensures HeavyDays([20.0]) == 0 && HeavyDays([20.5]) == 1
    ensures HeavyDays(xs) <= |xs|
    ensures (forall i :: 0 <= i < |xs| ==> xs[i] > 20.0) ==> HeavyDays(xs) == |xs|
  {
    assert [20.0][..0] == [] && [20.5][..0] == [];
    HeavyDaysBounds(xs);
  }

  lemma {:induction false} HeavyDaysBounds(xs: seq<real>)
    ensures HeavyDays(xs) <= |xs|
    ensures (forall i :: 0 <= i < |xs| ==> xs[i] > 20.0) ==> HeavyDays(xs) == |xs|
  {
    if xs != [] {
      HeavyDaysBounds(xs[..|xs| - 1]);
    }
  }

  /** The erosion rows agree with one another: the trend is "up" exactly when
      the risk is high, and more heavy days never lower the risk. */
  lemma ErosionRiskConsistent(p: seq<real>, fewer: nat, more: nat)
    requires fewer <= more
    ensures ErosionRiskRow(p).trend == Up <==> ErosionRiskRow(p).value == Level(High)
    ensures RiskOf(fewer) == High ==> RiskOf(more) == High
    ensures RiskOf(fewer) == Medium ==> RiskOf(more) != Low
    ensures RiskOf(3) == Medium && RiskOf(2) == Low && RiskOf(6) == High && RiskOf(5) == Medium
  {
  }

  lemma {:induction false} SumConstant(xs: seq<real>, c: real)
    requires forall i :: 0 <= i < |xs| ==> xs[i] == c
    ensures Sum(xs) == |xs| as real * c
  {
    if xs != [] {
      SumConstant(xs[..|xs| - 1], c);
    }
  }

  /** Sixty days or more, the last 30 at `a` mm a day and the 30 before at
      `b`: the soil moisture row reads `a` mm, trend "up" exactly when `a > b`,
      and a change of `|a - b| / b` percent. */
  lemma SteadyWindows(p: seq<real>, a: real, b: real)
    requires |p| >= 60 && b != 0.0
    requires forall i :: |p| - 30 <= i < |p| ==> p[i] == a
    requires forall i :: |p| - 60 <= i < |p| - 30 ==> p[i] == b
    ensures SoilMoistureRow(p).value == Millimetres(Finite(a))
    ensures SoilMoistureRow(p).trend == Up <==> a > b
    ensures SoilMoistureRow(p).change == Percent(Finite(Abs((a - b) / b * 100.0)))
  {
    var r := Recent(p);
    var q := Previous(p);
    assert r == p[|p| - 30..];
    assert q == p[|p| - 60..|p| - 30];
    SumConstant(r, a);
    SumConstant(q, b);
  }
}
