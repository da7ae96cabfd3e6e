/** The financial-tools page: a ledger of income and expense records, the
    totals shown above it, the ten most recent entries, and the form that
    adds a record. */
module Financial {
  import opened Wrappers
  import opened JsText
  import opened JsNumber
  import opened Buckets

  /** A row of the financial records table. `kind` is the record's type,
      "income" or "expense" as the form offers them, though the column takes
      any text. */
  datatype FinancialRecord = FinancialRecord(
    userId: string, date: string, kind: string, category: string, amount: real, description: string)

  datatype Toast = ErrorToast(message: string) | SuccessToast(message: string)

  function KindOf(r: FinancialRecord): string {
    r.kind
  }

  function AmountOf(r: FinancialRecord): real {
    r.amount
  }

  function UserOf(r: FinancialRecord): string {
    r.userId
  }

  /** A record's effect on the profit, as a reference for the totals. */
  function Signed(r: FinancialRecord): real {
    if r.kind == "income" then r.amount else if r.kind == "expense" then -r.amount else 0.0
  }

  /** The sum of the amounts of the income records. */
  function TotalIncome(rs: seq<FinancialRecord>): real {
    SumOf(Bucket(rs, KindOf, "income"), AmountOf)
  }

  /** The sum of the amounts of the expense records. */
  function TotalExpenses(rs: seq<FinancialRecord>): real {
    SumOf(Bucket(rs, KindOf, "expense"), AmountOf)
  }

  function NetProfit(rs: seq<FinancialRecord>): real {
    TotalIncome(rs) - TotalExpenses(rs)
  }

  /** The transactions listed: `records.slice(0, 10)`. */
  function Shown(rs: seq<FinancialRecord>): (shown: seq<FinancialRecord>)
    ensures |shown| == if |rs| < 10 then |rs| else 10
    ensures shown == rs[..|shown|]
  {
    Slice(rs, 0, 10)
  }

  /** The sign in front of a listed amount. */
  function SignOf(r: FinancialRecord): char {
    if r.kind == "income" then '+' else '-'
  }

  /** The user's records, as the page fetches them from the table. */
  function Fetch(rows: seq<FinancialRecord>, userId: string): seq<FinancialRecord> {
    Bucket(rows, UserOf, userId)
  }

  /** The financial records table. */
  class Ledger {
    var rows: seq<FinancialRecord>

    constructor (rows: seq<FinancialRecord>)
      ensures this.rows == rows
    {
      this.rows := rows;
    }
  }

  /** The page's state: the fetched records and the form's fields. */
  class FinancialPage {
    var records: seq<FinancialRecord>
    var amount: string
    var kind: string
    var category: string
    var description: string

    constructor ()
      ensures records == [] && amount == "" && kind == "expense" && category == "" && description == ""
    {
      records := [];
      amount := "";
      kind := "expense";
      category := "";
      description := "";
    }

    /** `fetchRecords`: the signed-in user's records replace the list;
        without a user nothing changes. `readOk` says whether the select
        succeeds: when it fails, `data` is `null` and `setRecords(data || [])`
        empties the list. */
    method FetchRecords(user: Option<string>, ledger: Ledger, readOk: bool)
      modifies this`records
      ensures records == if user.None? then old(records) else if readOk then Fetch(ledger.rows, user.value) else []
    {
      if user.Some? {
        records := if readOk then Fetch(ledger.rows, user.value) else [];
      }
    }

    /** `addRecord`: an empty amount or category is refused before anything
        is sent; without a user nothing happens. Otherwise the record is
        inserted with the amount read by `parseFloat`, which the table refuses
        when it is not a finite number (it travels as `null` into a column
        that is not nullable) or when `accepted` is false. On success the
        amount, category and description are cleared, the type is kept, and
        the list is fetched again; `readOk` says whether that select
        succeeds, and a failed one empties the list. */
    method AddRecord(user: Option<string>, today: string, ledger: Ledger, accepted: bool, readOk: bool)
      returns (toast: Option<Toast>)
      modifies this, ledger
      ensures old(amount) == "" || old(category) == "" ==>
        toast == Some(ErrorToast("Please fill all required fields"))
        && unchanged(this) && unchanged(ledger)
      ensures old(amount) != "" && old(category) != "" && user.None? ==>
        toast.None? && unchanged(this) && unchanged(ledger)
      ensures old(amount) != "" && old(category) != "" && user.Some? && accepted && ParseFloat(old(amount)).Finite? ==>
        && ledger.rows == old(ledger.rows) + [FinancialRecord(user.value, today, old(kind), old(category), ParseFloat(old(amount)).value, old(description))]
        && amount == "" && category == "" && description == "" && kind == old(kind)
        && records == (if readOk then Fetch(ledger.rows, user.value) else [])
        && toast == Some(SuccessToast("Financial record added"))
      ensures old(amount) != "" && old(category) != "" && user.Some? && !(accepted && ParseFloat(old(amount)).Finite?) ==>
        toast == Some(ErrorToast("Failed to add record")) && unchanged(this) && unchanged(ledger)
    {
      if amount == "" || category == "" {
        toast := Some(ErrorToast("Please fill all required fields"));
      } else if user.None? {
        toast := None;
      } else {
        var t := Insert(user.value, today, ParseFloat(amount), ledger, accepted, readOk);
        toast := Some(t);
      }
    }

    /** The insert of `addRecord` once the amount has been read as `q`: the
        row goes in only when `q` is finite and the table accepts it. */
    method Insert(userId: string, today: string, q: Quantity, ledger: Ledger, accepted: bool, readOk: bool)
      returns (toast: Toast)
      modifies this, ledger
      ensures accepted && q.Finite? ==>
        && ledger.rows == old(ledger.rows) + [FinancialRecord(userId, today, old(kind), old(category), q.value, old(description))]
        && amount == "" && category == "" && description == "" && kind == old(kind)
        && records == (if readOk then Fetch(ledger.rows, userId) else [])
        && toast == SuccessToast("Financial record added")
      ensures !(accepted && q.Finite?) ==>
        toast == ErrorToast("Failed to add record") && unchanged(this) && unchanged(ledger)
    {
      if accepted && q.Finite? {
        var rows := ledger.rows + [FinancialRecord(userId, today, kind, category, q.value, description)];
        ledger.rows := rows;
        toast := SuccessToast("Financial record added");
        amount := "";
        category := "";
        description := "";
        records := if readOk then Fetch(rows, userId) else [];
      } else {
        toast := ErrorToast("Failed to add record");
      }
    }
  }

  // ---------------------------------------------------------------------
  // Properties

  /** The net profit is the sum of the records' signed amounts: income adds,
      expense subtracts, and any other type counts for nothing. */
  lemma {:induction false} NetProfitIsSignedSum(rs: seq<FinancialRecord>)
    ensures NetProfit(rs) == SumOf(rs, Signed)
  {
    if rs != [] {
      var init := rs[..|rs| - 1];
      var r := rs[|rs| - 1];
      NetProfitIsSignedSum(init);
      assert rs == init + [r];
      OneMoreRecord(init, r);
    }
  }

  /** The totals of a ledger are the totals of its parts added up. */
  lemma TotalsAdditive(a: seq<FinancialRecord>, b: seq<FinancialRecord>)
    ensures TotalIncome(a + b) == TotalIncome(a) + TotalIncome(b)
    ensures TotalExpenses(a + b) == TotalExpenses(a) + TotalExpenses(b)
    ensures NetProfit(a + b) == NetProfit(a) + NetProfit(b)
  {
    BucketAppend(a, b, KindOf, "income");
    BucketAppend(a, b, KindOf, "expense");
    SumOfAppend(Bucket(a, KindOf, "income"), Bucket(b, KindOf, "income"), AmountOf);
    SumOfAppend(Bucket(a, KindOf, "expense"), Bucket(b, KindOf, "expense"), AmountOf);
  }

  /** Adding one record moves the income total by its amount when it is
      income, the expense total when it is an expense, and neither otherwise. */
  lemma OneMoreRecord(rs: seq<FinancialRecord>, r: FinancialRecord)
    ensures TotalIncome(rs + [r]) == TotalIncome(rs) + (if r.kind == "income" then r.amount else 0.0)
    ensures TotalExpenses(rs + [r]) == TotalExpenses(rs) + (if r.kind == "expense" then r.amount else 0.0)
  {
    TotalsAdditive(rs, [r]);
    Singleton(r, KindOf, "income", AmountOf);
    Singleton(r, KindOf, "expense", AmountOf);
    assert SumOf([], AmountOf) == 0.0;
  }

  /** The totals do not depend on the order the records are listed in. */
  lemma TotalsIgnoreOrder(rs: seq<FinancialRecord>, ss: seq<FinancialRecord>)
    requires multiset(rs) == multiset(ss)
    ensures TotalIncome(rs) == TotalIncome(ss) && TotalExpenses(rs) == TotalExpenses(ss)
  {
    BucketPermutation(rs, ss, KindOf, "income");
    BucketPermutation(rs, ss, KindOf, "expense");
    SumOfPermutation(Bucket(rs, KindOf, "income"), Bucket(ss, KindOf, "income"), AmountOf);
    SumOfPermutation(Bucket(rs, KindOf, "expense"), Bucket(ss, KindOf, "expense"), AmountOf);
  }

  /** After a successful add the user's income (or expense) total has grown
      by exactly the new amount. */
  lemma AddedRecordCounts(rows: seq<FinancialRecord>, r: FinancialRecord)
    ensures TotalIncome(Fetch(rows + [r], r.userId))
         == TotalIncome(Fetch(rows, r.userId)) + (if r.kind == "income" then r.amount else 0.0)
    ensures TotalExpenses(Fetch(rows + [r], r.userId))
         == TotalExpenses(Fetch(rows, r.userId)) + (if r.kind == "expense" then r.amount else 0.0)
  {
    BucketAppend(rows, [r], UserOf, r.userId);
    Singleton(r, UserOf, r.userId, AmountOf);
    assert Fetch(rows + [r], r.userId) == Fetch(rows, r.userId) + [r];
    OneMoreRecord(Fetch(rows, r.userId), r);
  }

  /** The list shows the first ten records, each with "+" exactly when it is
      income; a ledger of ten records or fewer is shown whole. */
  lemma ShownRecords(rs: seq<FinancialRecord>)
    ensures forall i :: 0 <= i < |Shown(rs)| ==> Shown(rs)[i] == rs[i] && (SignOf(Shown(rs)[i]) == '+' <==> rs[i].kind == "income")
    ensures |rs| <= 10 ==> Shown(rs) == rs
  {
  }
}
