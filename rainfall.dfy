/** `storeRainfallData`: the daily precipitation of an Open-Meteo archive reply
    summed per calendar month and upserted into `rainfall_data`, keyed by
    `(user_id, month)`. */
module Rainfall {
  import opened Wrappers
  import opened JsText
  import opened JsNumber
  import opened Buckets
  import opened Monthly

  /** The `daily` block of an Open-Meteo archive reply: the ISO dates and the
      precipitation sums in millimetres, index by index. */
  datatype Daily = Daily(time: seq<string>, precipitation: seq<real>)

  /** One day as the grouping loop sees it: its date and
      `precipitation_sum[index]`, `None` when that array is shorter than
      `time` (JavaScript `undefined`). */
  datatype Reading = Reading(date: string, mm: Option<real>)

  function Readings(d: Daily): seq<Reading> {
    seq(|d.time|, i requires 0 <= i < |d.time| =>
      Reading(d.time[i], if i < |d.precipitation| then Some(d.precipitation[i]) else None))
  }

  /** `date.substring(0, 7)`: the "YYYY-MM" part of an ISO date. */
  function MonthOf(r: Reading): string {
    Substring(r.date, 0, 7)
  }

  /** A reading's `precipitation_sum[index]`. */
  function Precip(r: Reading): Option<real> {
    r.mm
  }

  /** A reading's millimetres, zero when it has none. */
  function Mm(r: Reading): real {
    if r.mm.Some? then r.mm.value else 0.0
  }

  /** The month totals, one per month met, in the order months are first met. */
  function MonthTotals(rs: seq<Reading>): map<string, Quantity> {
    map k | k in Keys(rs, MonthOf) :: Total(Bucket(rs, MonthOf, k), Precip)
  }

  /** The rows a run of `storeRainfallData` for `userId` writes. */
  function RainfallWrites(userId: string, d: Daily, refused: set<(string, string)>): map<(string, string), real> {
    var rs := Readings(d);
    MonthWrites(userId, Keys(rs, MonthOf), MonthTotals(rs), refused)
  }

  /** `storeRainfallData(supabase, userId, weatherData)`: group the days by
      month, then upsert each month's total. */
  method StoreRainfall(table: MonthTable, userId: string, d: Daily)
    modifies table`rows
    ensures table.rows == old(table.rows) + RainfallWrites(userId, d, table.refused)
  {
    var rs := Readings(d);
    var order, groups := Group(rs, MonthOf);
    var totals := map m | m in groups :: Total(groups[m], Precip);
    assert totals == MonthTotals(rs);
    UpsertMonths(table, userId, order, totals);
  }

  /** A month's total does not depend on the order of the days in the reply. */
  lemma TotalsIgnoreOrder(rs1: seq<Reading>, rs2: seq<Reading>)
    requires multiset(rs1) == multiset(rs2)
    ensures MonthTotals(rs1) == MonthTotals(rs2)
  {
    KeysPermutation(rs1, rs2, MonthOf);
    forall k | k in Keys(rs1, MonthOf)
      ensures Total(Bucket(rs1, MonthOf, k), Precip) == Total(Bucket(rs2, MonthOf, k), Precip)
    {
      BucketPermutation(rs1, rs2, MonthOf, k);
      TotalPermutation(Bucket(rs1, MonthOf, k), Bucket(rs2, MonthOf, k), Precip, Mm);
    }
  }

  /** With every day present, each month's total is the sum of its days, and
      the month totals add up to the sum of all days: no day is lost or
      counted twice. */
  lemma TotalsConserveRain(rs: seq<Reading>)
    requires AllDefined(rs, Precip)
    ensures forall k :: k in Keys(rs, MonthOf) ==>
      MonthTotals(rs)[k] == Finite(SumOf(Bucket(rs, MonthOf, k), Mm))
    ensures SumOverKeys(Keys(rs, MonthOf), rs, MonthOf, Mm) == SumOf(rs, Mm)
  {
    forall k | k in Keys(rs, MonthOf)
      ensures MonthTotals(rs)[k] == Finite(SumOf(Bucket(rs, MonthOf, k), Mm))
    {
      BucketAllDefined(rs, MonthOf, k, Precip);
      TotalIsSum(Bucket(rs, MonthOf, k), Precip, Mm);
    }
    BucketsConserveSum(rs, MonthOf, Mm);
  }

  /** Some day of `rs` falls in month `m`. */
  ghost predicate MonthMet(rs: seq<Reading>, m: string) {
    exists i :: 0 <= i < |rs| && MonthOf(rs[i]) == m
  }

  /** What a run leaves for `userId`: a row for month `m` exactly when some day
      falls in `m`, every day of `m` has a precipitation value and the
      database takes the write; the row holds the sum of that month's days. */
  lemma RainfallWritesContent(userId: string, d: Daily, refused: set<(string, string)>, m: string)
    ensures (userId, m) in RainfallWrites(userId, d, refused) <==>
      MonthMet(Readings(d), m) && AllDefined(Bucket(Readings(d), MonthOf, m), Precip) && (userId, m) !in refused
    ensures (userId, m) in RainfallWrites(userId, d, refused) ==>
      RainfallWrites(userId, d, refused)[(userId, m)] == SumOf(Bucket(Readings(d), MonthOf, m), Mm)
  {
    var rs := Readings(d);
    KeysMembership(rs, MonthOf);
    MonthWritesContent(userId, Keys(rs, MonthOf), MonthTotals(rs), refused);
    TotalIsSum(Bucket(rs, MonthOf, m), Precip, Mm);
  }

  /** A day beyond the end of the precipitation array voids its month: that
      month gets no row. */
  lemma ShortPrecipitationVoidsMonth(userId: string, d: Daily, refused: set<(string, string)>, i: nat)
    requires |d.precipitation| <= i < |d.time|
    ensures (userId, MonthOf(Readings(d)[i])) !in RainfallWrites(userId, d, refused)
  {
    var rs := Readings(d);
    var m := MonthOf(rs[i]);
    var b := Bucket(rs, MonthOf, m);
    BucketMembership(rs, MonthOf, m);
    assert rs[i] in b;
    AllDefinedByMembers(b, Precip);
    RainfallWritesContent(userId, d, refused, m);
  }

  /** Every row a run writes belongs to the user it ran for. */
  lemma RainfallWritesOwnUser(userId: string, d: Daily, refused: set<(string, string)>)
    ensures forall k :: k in RainfallWrites(userId, d, refused) ==> k.0 == userId
  {
    var rs := Readings(d);
    MonthWritesOwnUser(userId, Keys(rs, MonthOf), MonthTotals(rs), refused);
  }
}
