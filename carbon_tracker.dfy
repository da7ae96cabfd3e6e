/** The carbon-tracker page: the user's carbon-credit rows, the totals and
    verified count shown above them, the form that asks the carbon function
    for a new credit, and the history chart. */
module CarbonTracker {
  import opened Wrappers
  import opened JsNumber
  import opened Buckets
  import CarbonCalc

  /** A carbon-credit row as the page reads it; the tons and the value are
      read through `|| 0`, so a missing one counts as 0. */
  datatype CreditRow = CreditRow(userId: string, date: string, carbon: Option<real>, value: Option<real>, status: string)

  datatype Toast = ErrorToast(message: string) | SuccessToast(message: string)

  /** A row the carbon function inserted, as the page reads it back. */
  function FromCalc(c: CarbonCalc.CarbonCredit): CreditRow {
    CreditRow(c.userId, c.date, Some(c.carbon), Some(c.creditValue), c.status)
  }

  function CarbonOr0(c: CreditRow): real {
    if c.carbon.Some? then c.carbon.value else 0.0
  }

  function ValueOr0(c: CreditRow): real {
    if c.value.Some? then c.value.value else 0.0
  }

  function StatusOf(c: CreditRow): string {
    c.status
  }

  function CalcUser(c: CarbonCalc.CarbonCredit): string {
    c.userId
  }

  function TotalCarbon(cs: seq<CreditRow>): real {
    SumOf(cs, CarbonOr0)
  }

  function TotalValue(cs: seq<CreditRow>): real {
    SumOf(cs, ValueOr0)
  }

  /** The number of credits whose status is "verified". */
  function VerifiedCount(cs: seq<CreditRow>): nat {
    |Bucket(cs, StatusOf, "verified")|
  }

  /** Table rows as the page reads them. */
  function Rows(rows: seq<CarbonCalc.CarbonCredit>): (cs: seq<CreditRow>)
    ensures |cs| == |rows|
  {
    if rows == [] then [] else Rows(rows[..|rows| - 1]) + [FromCalc(rows[|rows| - 1])]
  }

  /** The user's rows of the carbon-credit table, read back by the page. */
  function Fetch(rows: seq<CarbonCalc.CarbonCredit>, userId: string): seq<CreditRow> {
    Rows(Bucket(rows, CalcUser, userId))
  }

  /** Every row carries the credit value the carbon function computes from
      its tons; the function is the only writer of the table. */
  ghost predicate Priced(rows: seq<CarbonCalc.CarbonCredit>) {
    forall i :: 0 <= i < |rows| ==> rows[i].creditValue == CarbonCalc.CreditValue(rows[i].carbon)
  }

  function Reverse<T>(s: seq<T>): (r: seq<T>)
    ensures |r| == |s|
    ensures forall i :: 0 <= i < |s| ==> r[i] == s[|s| - 1 - i]
  {
    if s == [] then [] else [s[|s| - 1]] + Reverse(s[..|s| - 1])
  }

  /** Lexicographic order of text, the order of ISO dates. */
  predicate LexLess(a: string, b: string) {
    if a == [] then b != []
    else if b == [] then false
    else if a[0] == b[0] then LexLess(a[1..], b[1..])
    else a[0] < b[0]
  }

  /** Newest date first, as the page's query orders the credits. */
  ghost predicate NewestFirst(cs: seq<CreditRow>) {
    forall i, j :: 0 <= i < j < |cs| ==> !LexLess(cs[i].date, cs[j].date)
  }

  /** Oldest date first, the order a history chart reads in. */
  ghost predicate OldestFirst(cs: seq<CreditRow>) {
    forall i, j :: 0 <= i < j < |cs| ==> !LexLess(cs[j].date, cs[i].date)
  }

  /** The chart's series: the fetched credits in the opposite order, leaving
      the page's list as it is. */
  function ChartSeries(cs: seq<CreditRow>): seq<CreditRow> {
    Reverse(cs)
  }

  /** The carbon-credit table. */
  class CreditStore {
    var rows: seq<CarbonCalc.CarbonCredit>

    constructor (rows: seq<CarbonCalc.CarbonCredit>)
      ensures this.rows == rows
    {
      this.rows := rows;
    }
  }

  /** The page's state: the fetched credits, the area field and the busy
      flag. */
  class CarbonPage {
    var credits: seq<CreditRow>
    var area: string
    var loading: bool

    constructor ()
      ensures credits == [] && area == "" && !loading
    {
      credits := [];
      area := "";
      loading := false;
    }

    /** The chart as the page draws it. */
    function Chart(): seq<CreditRow>
      reads this
    {
      ChartSeries(credits)
    }

    /** `calculateCarbon`: an empty area field is refused and nothing is
        sent. Otherwise the busy flag is raised and the carbon function is
        called with the area read by `parseFloat`; `vegetation`, `today` and
        `accepted` are what that function sees, and `errorMessage` is the text
        the client library gives a failed call. A success re-fetches the
        user's credits; `readOk` says whether that select succeeds, and a
        failed one empties the list (`setCredits(data || [])`). The busy flag
        is cleared whatever the outcome. */
    method Calculate(user: Option<string>, vegetation: Option<seq<real>>, today: string, accepted: bool,
                     errorMessage: string, readOk: bool, store: CreditStore)
      returns (toast: Toast, sent: bool)
      modifies this`credits, this`loading, store
      ensures old(area) == "" ==>
        toast == ErrorToast("Please enter land area") && !sent && unchanged(this) && unchanged(store)
      ensures old(area) != "" ==>
        var o := CarbonCalc.CalculateCarbon(user, ParseFloat(area), vegetation, today, accepted, old(store.rows));
        && sent && !loading && store.rows == o.credits
        && (o.reply.Success? ==>
              user.Some? && toast == SuccessToast("Carbon credits calculated successfully!")
              && credits == (if readOk then Fetch(store.rows, user.value) else []))
        && (o.reply.ServerError? ==>
              toast == ErrorToast(if errorMessage != "" then errorMessage else "Failed to calculate carbon credits")
              && credits == old(credits))
    {
      if area == "" {
        toast := ErrorToast("Please enter land area");
        sent := false;
        return;
      }
      loading := true;
      sent := true;
      var o := CarbonCalc.CalculateCarbon(user, ParseFloat(area), vegetation, today, accepted, store.rows);
      store.rows := o.credits;
      if o.reply.Success? {
        toast := SuccessToast("Carbon credits calculated successfully!");
        credits := if readOk then Fetch(store.rows, user.value) else [];
      } else {
        toast := ErrorToast(if errorMessage != "" then errorMessage else "Failed to calculate carbon credits");
      }
      loading := false;
    }

    /** The history chart as the page builds it: `credits.reverse()` reverses
        the page's own list in place and draws it, so every render flips the
        stored order. */
    method RenderChartInPlace() returns (chart: seq<CreditRow>)
      modifies this`credits
      ensures credits == Reverse(old(credits))
      ensures chart == credits
    {
      credits := Reverse(credits);
      chart := credits;
    }
  }

  // ---------------------------------------------------------------------
  // Properties

  /** The verified count never exceeds the number of credits shown beside
      it, and reaches it exactly when every credit is verified. */
  lemma VerifiedWithinTotal(cs: seq<CreditRow>)
    ensures VerifiedCount(cs) <= |cs|
    ensures VerifiedCount(cs) == |cs| <==> forall i :: 0 <= i < |cs| ==> cs[i].status == "verified"
  {
    BucketLength(cs, StatusOf, "verified");
  }

  /** One more credit adds its tons and value to the totals, or nothing for
      a missing one. */
  lemma OneMoreCredit(cs: seq<CreditRow>, c: CreditRow)
    ensures TotalCarbon(cs + [c]) == TotalCarbon(cs) + (if c.carbon.Some? then c.carbon.value else 0.0)
    ensures TotalValue(cs + [c]) == TotalValue(cs) + (if c.value.Some? then c.value.value else 0.0)
  {
    assert (cs + [c])[..|cs|] == cs;
  }

  /** For priced rows the total value is 15 dollars for every ton of the
      total carbon. */
  lemma {:induction false} ValueIsPricedCarbon(rows: seq<CarbonCalc.CarbonCredit>)
    requires Priced(rows)
    ensures TotalValue(Rows(rows)) == 15.0 * TotalCarbon(Rows(rows))
  {
    if rows != [] {
      var init := rows[..|rows| - 1];
      assert Priced(init) by {
        forall i | 0 <= i < |init| ensures init[i] == rows[i] {}
      }
      ValueIsPricedCarbon(init);
      OneMoreCredit(Rows(init), FromCalc(rows[|rows| - 1]));
    }
  }

  /** The carbon function keeps the table priced, so the page's two totals
      always stand in the ratio of the price per ton. */
  lemma CalculationKeepsPricing(user: Option<string>, area: Quantity, vegetation: Option<seq<real>>,
                                today: string, accepted: bool, rows: seq<CarbonCalc.CarbonCredit>, userId: string)
    requires Priced(rows)
    ensures var after := CarbonCalc.CalculateCarbon(user, area, vegetation, today, accepted, rows).credits;
      Priced(after) && TotalValue(Fetch(after, userId)) == 15.0 * TotalCarbon(Fetch(after, userId))
  {
    var after := CarbonCalc.CalculateCarbon(user, area, vegetation, today, accepted, rows).credits;
    assert Priced(after) by {
      forall i | 0 <= i < |after| ensures after[i].creditValue == CarbonCalc.CreditValue(after[i].carbon) {
        if i < |rows| {
          assert after[i] == rows[i];
        }
      }
    }
    var own := Bucket(after, CalcUser, userId);
    BucketMembership(after, CalcUser, userId);
    assert Priced(own) by {
      forall i | 0 <= i < |own| ensures own[i].creditValue == CarbonCalc.CreditValue(own[i].carbon) {
        assert own[i] in after;
      }
    }
    ValueIsPricedCarbon(own);
  }

  /** The guard `!areaHectares` only checks that the text is non-empty, not
      that it is a number. A non-empty text without a numeric prefix gets past
      it, and the carbon function then records nothing: `parseFloat` makes it
      NaN, which reaches the table as `null`. (The page's number field hands
      over "" for such text in a browser; any other non-finite `parseFloat`
      result is refused the same way, see `CarbonCalc.NonFiniteAreaRefused`.) */
  lemma NonNumericAreaRefused(user: string, area: string, ndvi: seq<real>, today: string, accepted: bool,
                              rows: seq<CarbonCalc.CarbonCredit>)
    requires area != "" && StartsWithoutNumber(area) && ndvi != []
    ensures CarbonCalc.CalculateCarbon(Some(user), ParseFloat(area), Some(ndvi), today, accepted, rows)
         == CarbonCalc.Outcome(CarbonCalc.ServerError(CarbonCalc.InsertFailed), rows)
  {
    ParseFloatNoNumber(area);
  }

  /** After a successful calculation the page's total carbon has grown by the
      new row's tons. */
  lemma NewCreditCounted(rows: seq<CarbonCalc.CarbonCredit>, c: CarbonCalc.CarbonCredit)
    ensures TotalCarbon(Fetch(rows + [c], c.userId)) == TotalCarbon(Fetch(rows, c.userId)) + c.carbon
  {
    BucketAppend(rows, [c], CalcUser, c.userId);
    Singleton(c, CalcUser, c.userId, (x: CarbonCalc.CarbonCredit) => x.carbon);
    var own := Bucket(rows, CalcUser, c.userId);
    assert Bucket(rows + [c], CalcUser, c.userId) == own + [c];
    assert (own + [c])[..|own|] == own;
    OneMoreCredit(Rows(own), FromCalc(c));
  }

  lemma {:induction false} LexLessAsymmetric(a: string, b: string)
    requires LexLess(a, b)
    ensures !LexLess(b, a)
  {
    if a != [] && b != [] && a[0] == b[0] {
      LexLessAsymmetric(a[1..], b[1..]);
    }
  }

  /** The chart drawn from a newest-first list reads oldest first, on every
      render. */
  lemma ChartOldestFirst(cs: seq<CreditRow>)
    requires NewestFirst(cs)
    ensures OldestFirst(ChartSeries(cs))
  {
    var r := ChartSeries(cs);
    forall i, j | 0 <= i < j < |r| ensures !LexLess(r[j].date, r[i].date) {
      assert r[i] == cs[|cs| - 1 - i] && r[j] == cs[|cs| - 1 - j];
    }
  }

  /** What the page does instead: of two credits fetched newest first, the
      first render draws them oldest first, but the list it leaves behind is
      reversed, so the second render draws them newest first. */
  lemma SecondRenderFlips(x: CreditRow, y: CreditRow)
    requires LexLess(y.date, x.date)
    ensures NewestFirst([x, y])
    ensures OldestFirst(Reverse([x, y]))
    ensures Reverse(Reverse([x, y])) == [x, y] && !OldestFirst([x, y])
  {
    LexLessAsymmetric(y.date, x.date);
    assert Reverse([x, y]) == [y, x];
    assert Reverse([y, x]) == [x, y];
  }
}
