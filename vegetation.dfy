/** `storeVegetationData`: a monthly vegetation index estimated from the NASA
    POWER daily solar radiation and precipitation, upserted into
    `vegetation_data`, keyed by `(user_id, month)`. */
module Vegetation {
  import opened Wrappers
  import opened JsText
  import opened JsNumber
  import opened Buckets
  import opened Monthly
  import Rainfall

  /** The `properties.parameter` block of a NASA POWER daily reply.
      `solar` is `ALLSKY_SFC_SW_DWN` as `Object.entries` lists it, `precip` is
      `PRECTOTCORR` by date; `None` where the reply lacks the block. */
  datatype Power = Power(solar: Option<seq<(string, real)>>, precip: Option<map<string, real>>)

  /** One solar entry with `precipData[date]`, `None` when the precipitation
      block has no entry for that date (JavaScript `undefined`). */
  datatype VegDay = VegDay(date: string, solar: real, precip: Option<real>)

  function VegDays(entries: seq<(string, real)>, precip: map<string, real>): seq<VegDay> {
    seq(|entries|, i requires 0 <= i < |entries| =>
      VegDay(entries[i].0, entries[i].1, if entries[i].0 in precip then Some(precip[entries[i].0]) else None))
  }

  /** The month of a "YYYYMMDD" key: `date.substring(0, 6)`, then
      `${month.substring(0, 4)}-${month.substring(4, 6)}`. */
  function VegMonthOf(v: VegDay): string {
    var m := Substring(v.date, 0, 6);
    Substring(m, 0, 4) + "-" + Substring(m, 4, 6)
  }

  function Solar(v: VegDay): real {
    v.solar
  }

  function PrecipOf(v: VegDay): Option<real> {
    v.precip
  }

  function PrecipOr0(v: VegDay): real {
    if v.precip.Some? then v.precip.value else 0.0
  }

  /** `Math.min(0.9, Math.max(0.1, (avgPrecip * 0.01 + avgSolar * 0.001) / 10))`;
      NaN passes through both `Math.max` and `Math.min`. */
  function Ndvi(avgPrecip: Quantity, avgSolar: real): (r: Quantity)
    ensures r.Finite? <==> avgPrecip.Finite?
    ensures r.Finite? ==> 0.1 <= r.value <= 0.9
  {
    match avgPrecip
    case NotFinite => NotFinite
    case Finite(p) =>
      var raw := (p * 0.01 + avgSolar * 0.001) / 10.0;
      Finite(if raw > 0.9 then 0.9 else if raw < 0.1 then 0.1 else raw)
  }

  /** The index of one month's entries: the average solar radiation and the
      average precipitation, NaN when an entry has no precipitation. */
  function MonthIndex(b: seq<VegDay>): Quantity
    requires b != []
  {
    var avgSolar := SumOf(b, Solar) / |b| as real;
    var avgPrecip := match Total(b, PrecipOf)
      case Finite(t) => Finite(t / |b| as real)
      case NotFinite => NotFinite;
    Ndvi(avgPrecip, avgSolar)
  }

  /** The index of each month met. */
  function MonthIndices(vs: seq<VegDay>): map<string, Quantity> {
    map k | k in Keys(vs, VegMonthOf) :: MonthIndex(NonEmptyBucket(vs, k))
  }

  /** The bucket of a month met, which holds at least one entry. */
  function NonEmptyBucket(vs: seq<VegDay>, k: string): (b: seq<VegDay>)
    requires k in Keys(vs, VegMonthOf)
    ensures b != [] && b == Bucket(vs, VegMonthOf, k)
  {
    BucketEmpty(vs, VegMonthOf, k);
    Bucket(vs, VegMonthOf, k)
  }

  /** Whether `storeVegetationData` throws before writing anything: the solar
      block is missing, or the precipitation block is missing and some solar
      entry needs it. */
  predicate Malformed(p: Power) {
    p.solar.None? || (p.precip.None? && p.solar.value != [])
  }

  function DaysOf(p: Power): seq<VegDay>
    requires !Malformed(p)
  {
    VegDays(p.solar.value, if p.precip.Some? then p.precip.value else map[])
  }

  /** The rows a run of `storeVegetationData` for `userId` writes. */
  function VegetationWrites(userId: string, p: Power, refused: set<(string, string)>): map<(string, string), real>
    requires !Malformed(p)
  {
    var vs := DaysOf(p);
    MonthWrites(userId, Keys(vs, VegMonthOf), MonthIndices(vs), refused)
  }

  /** `storeVegetationData(supabase, userId, nasaData)`: `failed` when it
      throws, and then nothing is written; otherwise each month's index is
      upserted. */
  method StoreVegetation(table: MonthTable, userId: string, p: Power) returns (failed: bool)
    modifies table`rows
    ensures failed == Malformed(p)
    ensures table.rows == if failed then old(table.rows) else old(table.rows) + VegetationWrites(userId, p, table.refused)
  {
    if Malformed(p) {
      return true;
    }
    failed := false;
    var vs := DaysOf(p);
    var order, groups := Group(vs, VegMonthOf);
    var indices := map m | m in groups :: MonthIndex(NonEmptyBucket(vs, m));
    assert indices == MonthIndices(vs);
    UpsertMonths(table, userId, order, indices);
  }

  /** Inside the clamp the index is the raw combination; below it 0.1, above
      it 0.9; and it is NaN exactly when the average precipitation is. */
  lemma NdviClamp(p: real, s: real)
    ensures var raw := (p * 0.01 + s * 0.001) / 10.0;
      && (0.1 <= raw <= 0.9 ==> Ndvi(Finite(p), s) == Finite(raw))
      && (raw < 0.1 ==> Ndvi(Finite(p), s) == Finite(0.1))
      && (raw > 0.9 ==> Ndvi(Finite(p), s) == Finite(0.9))
    ensures Ndvi(NotFinite, s) == NotFinite
  {
  }

  /** More rain or more sun never lowers the index. */
  lemma NdviMonotone(p1: real, s1: real, p2: real, s2: real)
    requires p1 <= p2 && s1 <= s2
    ensures Ndvi(Finite(p1), s1).value <= Ndvi(Finite(p2), s2).value
  {
  }

  /** Some entry of `vs` falls in month `m`. */
  ghost predicate MonthMet(vs: seq<VegDay>, m: string) {
    exists i :: 0 <= i < |vs| && VegMonthOf(vs[i]) == m
  }

  /** What a run leaves for `userId`: a row for month `m` exactly when some
      solar entry falls in `m`, every entry of `m` has a precipitation value
      and the database takes the write. The row holds the index of the
      month's mean precipitation and mean solar radiation, clamped to
      `[0.1, 0.9]`. */
  lemma VegetationWritesContent(userId: string, p: Power, refused: set<(string, string)>, m: string)
    requires !Malformed(p)
    ensures (userId, m) in VegetationWrites(userId, p, refused) <==>
      MonthMet(DaysOf(p), m) && AllDefined(Bucket(DaysOf(p), VegMonthOf, m), PrecipOf) && (userId, m) !in refused
    ensures (userId, m) in VegetationWrites(userId, p, refused) ==>
      var b := Bucket(DaysOf(p), VegMonthOf, m);
      && |b| > 0
      && VegetationWrites(userId, p, refused)[(userId, m)]
         == Ndvi(Finite(SumOf(b, PrecipOr0) / |b| as real), SumOf(b, Solar) / |b| as real).value
    ensures (userId, m) in VegetationWrites(userId, p, refused) ==>
      0.1 <= VegetationWrites(userId, p, refused)[(userId, m)] <= 0.9
  {
    DaysContent(userId, DaysOf(p), refused, m);
  }

  /** The same, for any sequence of days. */
  lemma DaysContent(userId: string, vs: seq<VegDay>, refused: set<(string, string)>, m: string)
    ensures var w := MonthWrites(userId, Keys(vs, VegMonthOf), MonthIndices(vs), refused);
      && ((userId, m) in w <==> MonthMet(vs, m) && AllDefined(Bucket(vs, VegMonthOf, m), PrecipOf) && (userId, m) !in refused)
      && ((userId, m) in w ==> 0.1 <= w[(userId, m)] <= 0.9)
    ensures var w := MonthWrites(userId, Keys(vs, VegMonthOf), MonthIndices(vs), refused);
      var b := Bucket(vs, VegMonthOf, m);
      (userId, m) in w ==>
        && |b| > 0
        && w[(userId, m)] == Ndvi(Finite(SumOf(b, PrecipOr0) / |b| as real), SumOf(b, Solar) / |b| as real).value
  {
    var ks := Keys(vs, VegMonthOf);
    MonthListed(vs, m);
    MonthWriteAt(userId, ks, MonthIndices(vs), refused, m);
    if m in ks {
      var b := NonEmptyBucket(vs, m);
      MonthIndexDefined(b);
      assert MonthIndices(vs)[m] == MonthIndex(b);
    }
  }

  /** A month is listed exactly when some day falls in it. */
  lemma MonthListed(vs: seq<VegDay>, m: string)
    ensures m in Keys(vs, VegMonthOf) <==> MonthMet(vs, m)
  {
    KeysMembership(vs, VegMonthOf);
  }

  /** A month's index is a number exactly when each of its entries has a
      precipitation value, and then it is the index of the mean
      precipitation and the mean solar radiation, in `[0.1, 0.9]`. */
  lemma MonthIndexDefined(b: seq<VegDay>)
    requires b != []
    ensures MonthIndex(b).Finite? <==> AllDefined(b, PrecipOf)
    ensures MonthIndex(b).Finite? ==> 0.1 <= MonthIndex(b).value <= 0.9
    ensures AllDefined(b, PrecipOf) ==>
      MonthIndex(b) == Ndvi(Finite(SumOf(b, PrecipOr0) / |b| as real), SumOf(b, Solar) / |b| as real)
  {
    TotalIsSum(b, PrecipOf, PrecipOr0);
  }

  /** Every row a run writes belongs to the user it ran for. */
  lemma VegetationWritesOwnUser(userId: string, p: Power, refused: set<(string, string)>)
    requires !Malformed(p)
    ensures forall k :: k in VegetationWrites(userId, p, refused) ==> k.0 == userId
  {
    var vs := DaysOf(p);
    MonthWritesOwnUser(userId, Keys(vs, VegMonthOf), MonthIndices(vs), refused);
  }

  /** A month's index does not depend on the order in which the reply lists
      the days. */
  lemma IndicesIgnoreOrder(vs1: seq<VegDay>, vs2: seq<VegDay>)
    requires multiset(vs1) == multiset(vs2)
    ensures MonthIndices(vs1) == MonthIndices(vs2)
  {
    KeysPermutation(vs1, vs2, VegMonthOf);
    forall k | k in Keys(vs1, VegMonthOf)
      ensures MonthIndex(NonEmptyBucket(vs1, k)) == MonthIndex(NonEmptyBucket(vs2, k))
    {
      BucketPermutation(vs1, vs2, VegMonthOf, k);
      MonthIndexPermutation(NonEmptyBucket(vs1, k), NonEmptyBucket(vs2, k));
    }
  }

  /** One month's index does not depend on the order of its days. */
  lemma MonthIndexPermutation(b1: seq<VegDay>, b2: seq<VegDay>)
    requires b1 != [] && b2 != [] && multiset(b1) == multiset(b2)
    ensures MonthIndex(b1) == MonthIndex(b2)
  {
    assert |b1| == |multiset(b1)| == |multiset(b2)| == |b2|;
    TotalPermutation(b1, b2, PrecipOf, PrecipOr0);
    SumOfPermutation(b1, b2, Solar);
  }

  /** A missing or malformed parameter block stops the step before any
      write; a reply with no solar entries writes nothing and does not fail. */
  lemma NoSolarEntriesNoRows(userId: string, p: Power, refused: set<(string, string)>)
    requires p.solar == Some([])
    ensures !Malformed(p) && VegetationWrites(userId, p, refused) == map[]
  {
    assert DaysOf(p) == [];
  }

  /** The same calendar day, written "YYYY-MM-DD" by Open-Meteo and
      "YYYYMMDD" by NASA POWER, falls under the same "YYYY-MM" key in
      `rainfall_data` and `vegetation_data`. */
  lemma MonthKeysAgree(year: string, month: string, day: string, solar: real,
                       precip: Option<real>, mm: Option<real>)
    requires |year| == 4 && |month| == 2 && |day| == 2
    ensures VegMonthOf(VegDay(year + month + day, solar, precip)) == year + "-" + month
    ensures Rainfall.MonthOf(Rainfall.Reading(year + "-" + month + "-" + day, mm)) == year + "-" + month
  {
    var compact := year + month + day;
    assert compact[..6] == year + month;
    assert (year + month)[..4] == year;
    assert (year + month)[4..6] == month;
    var iso := year + "-" + month + "-" + day;
    assert iso[..7] == year + "-" + month;
  }
}
