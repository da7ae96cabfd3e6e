/** The carbon-calculation function: the NDVI change over a user's
    vegetation rows in a period becomes tons of sequestered carbon and a
    credit value, recorded as a new carbon-credit row. */
module CarbonCalc {
  import opened Wrappers
  import opened JsNumber

  /** A carbon-credit row; the area is absent (JSON `null`) when the request
      carried a number that is not finite. */
  datatype CarbonCredit = CarbonCredit(
    userId: string, date: string, carbon: real, area: Option<real>,
    creditValue: real, status: string)

  /** Why the function answers 500. The last one carries a message made by
      the database client, which the model does not know. */
  datatype Failure = NotAuthenticated | NoVegetationData | InsertFailed

  datatype Reply = Success(credit: CarbonCredit) | ServerError(failure: Failure)

  datatype Outcome = Outcome(reply: Reply, credits: seq<CarbonCredit>)

  const BaseSequestration: real := 3.5
  const PricePerTon: real := 15.0

  function Message(f: Failure): (m: Option<string>)
    ensures m.Some? <==> !f.InsertFailed?
  {
    match f
    case NotAuthenticated => Some("Not authenticated")
    case NoVegetationData => Some("No vegetation data available for calculation")
    case InsertFailed => None
  }

  /** The texts of the messages the function writes itself. */
  lemma Messages()
    ensures Message(NotAuthenticated) == Some("Not authenticated")
    ensures Message(NoVegetationData) == Some("No vegetation data available for calculation")
  {
  }

  /** The NDVI change from the first to the last row of the period. */
  function Improvement(ndvi: seq<real>): real
    requires ndvi != []
  {
    ndvi[|ndvi| - 1] - ndvi[0]
  }

  /** `Math.max(0, improvement * 10)`. */
  function ImprovementFactor(improvement: real): (f: real)
    ensures f >= 0.0 && f >= 10.0 * improvement
    ensures f == 0.0 || f == 10.0 * improvement
  {
    if improvement * 10.0 > 0.0 then improvement * 10.0 else 0.0
  }

  /** The area as the arithmetic sees it: a non-finite number travels as
      JSON `null`, which multiplies as 0. */
  function AreaFactor(area: Quantity): real {
    if area.Finite? then area.value else 0.0
  }

  /** Tons of carbon sequestered over the area. */
  function Sequestered(area: Quantity, ndvi: seq<real>): real
    requires ndvi != []
  {
    AreaFactor(area) * (BaseSequestration + ImprovementFactor(Improvement(ndvi)))
  }

  function CreditValue(carbon: real): real {
    carbon * PricePerTon
  }

  /** The row the function inserts. */
  function NewCredit(userId: string, today: string, area: Quantity, ndvi: seq<real>): CarbonCredit
    requires ndvi != []
  {
    var carbon := Sequestered(area, ndvi);
    CarbonCredit(userId, today, carbon, if area.Finite? then Some(area.value) else None,
                 CreditValue(carbon), "calculated")
  }

  /** One request. `vegetation` is the NDVI of the user's vegetation rows in
      the requested period in creation order (absent when the query failed),
      `today` the current date, `insertAccepted` whether the database takes
      the row and `credits` the table before the call. The area column is not
      nullable, so a row without an area is refused. */
  function CalculateCarbon(user: Option<string>, area: Quantity, vegetation: Option<seq<real>>,
                           today: string, insertAccepted: bool, credits: seq<CarbonCredit>): Outcome
  {
    if user.None? then Outcome(ServerError(NotAuthenticated), credits)
    else if vegetation.None? || vegetation.value == [] then Outcome(ServerError(NoVegetationData), credits)
    else
      var row := NewCredit(user.value, today, area, vegetation.value);
      if insertAccepted && row.area.Some? then Outcome(Success(row), credits + [row])
      else Outcome(ServerError(InsertFailed), credits)
  }

  // ---------------------------------------------------------------------
  // Properties

  /** With no vegetation rows nothing is inserted. */
  lemma NoDataNoInsert(user: string, area: Quantity, vegetation: Option<seq<real>>, today: string,
                       insertAccepted: bool, credits: seq<CarbonCredit>)
    requires vegetation.None? || vegetation.value == []
    ensures CalculateCarbon(Some(user), area, vegetation, today, insertAccepted, credits)
         == Outcome(ServerError(NoVegetationData), credits)
    ensures Message(NoVegetationData) == Some("No vegetation data available for calculation")
  {
    Messages();
  }

  /** Carbon is never below the base rate over a non-negative area, and is
      exactly the base rate when the NDVI did not rise. */
  lemma BaseRateFloor(a: real, ndvi: seq<real>)
    requires ndvi != [] && a >= 0.0
    ensures Sequestered(Finite(a), ndvi) >= BaseSequestration * a
    ensures ndvi[|ndvi| - 1] <= ndvi[0] ==> Sequestered(Finite(a), ndvi) == BaseSequestration * a
    ensures ndvi[|ndvi| - 1] > ndvi[0] ==>
      Sequestered(Finite(a), ndvi) == a * (BaseSequestration + 10.0 * (ndvi[|ndvi| - 1] - ndvi[0]))
  {
    var f := ImprovementFactor(Improvement(ndvi));
    assert a * (BaseSequestration + f) == BaseSequestration * a + a * f;
    assert a * f >= 0.0;
  }

  /** A single row is no improvement: the base rate. */
  lemma SingleRow(a: real, x: real)
    ensures Sequestered(Finite(a), [x]) == BaseSequestration * a
  {
  }

  /** Only the first and the last row matter. */
  lemma EndsDecide(area: Quantity, ndvi: seq<real>, other: seq<real>)
    requires ndvi != [] && other != []
    requires ndvi[0] == other[0] && ndvi[|ndvi| - 1] == other[|other| - 1]
    ensures Sequestered(area, ndvi) == Sequestered(area, other)
  {
  }

  /** A larger NDVI rise never lowers the carbon over a non-negative area. */
  lemma MoreGrowthMoreCarbon(a: real, ndvi: seq<real>, other: seq<real>)
    requires ndvi != [] && other != [] && a >= 0.0
    requires Improvement(ndvi) <= Improvement(other)
    ensures Sequestered(Finite(a), ndvi) <= Sequestered(Finite(a), other)
  {
    var f := ImprovementFactor(Improvement(ndvi));
    var g := ImprovementFactor(Improvement(other));
    assert f <= g;
    assert a * (BaseSequestration + g) - a * (BaseSequestration + f) == a * (g - f);
    assert a * (g - f) >= 0.0;
  }

  /** A successful call appends exactly one row, carrying the request's area,
      the status "calculated" and a credit value of 15 dollars a ton; rows
      already there are kept. */
  lemma InsertAppends(user: string, a: real, ndvi: seq<real>, today: string, credits: seq<CarbonCredit>)
    requires ndvi != []
    ensures var o := CalculateCarbon(Some(user), Finite(a), Some(ndvi), today, true, credits);
      && o.reply.Success?
      && o.credits == credits + [o.reply.credit]
      && |o.credits| == |credits| + 1
      && o.reply.credit.area == Some(a)
      && o.reply.credit.status == "calculated"
      && o.reply.credit.userId == user
      && o.reply.credit.creditValue == 15.0 * o.reply.credit.carbon
      && o.reply.credit.carbon == Sequestered(Finite(a), ndvi)
  {
  }

  /** Calling twice records two rows: the insert has no conflict key. */
  lemma RepeatAddsRows(user: string, a: real, ndvi: seq<real>, today: string, credits: seq<CarbonCredit>)
    requires ndvi != []
    ensures var once := CalculateCarbon(Some(user), Finite(a), Some(ndvi), today, true, credits);
      var twice := CalculateCarbon(Some(user), Finite(a), Some(ndvi), today, true, once.credits);
      |twice.credits| == |credits| + 2 && twice.credits[|credits|] == twice.credits[|credits| + 1]
  {
  }

  /** An area that is not a finite number is refused by the database and
      nothing is recorded. */
  lemma NonFiniteAreaRefused(user: string, ndvi: seq<real>, today: string, insertAccepted: bool,
                             credits: seq<CarbonCredit>)
    requires ndvi != []
    ensures CalculateCarbon(Some(user), NotFinite, Some(ndvi), today, insertAccepted, credits)
         == Outcome(ServerError(InsertFailed), credits)
  {
  }
}
