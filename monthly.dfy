/** One value per month written for one user into a table keyed by
    `(user_id, month)`, as the rainfall and vegetation steps of the
    environmental-data batch do, one upsert per month. */
module Monthly {
  import opened JsNumber
  import opened Tables

  /** `rainfall_data` or `vegetation_data`: a real-valued NOT NULL column keyed
      by `(user_id, month)`. */
  type MonthTable = Table<(string, string), real>

  /** Whether the upsert of month `m` is stored: a value that is not finite is
      sent as JSON `null` into the NOT NULL column and refused, and so is a
      write to a refused key. */
  predicate Stored(userId: string, m: string, values: map<string, Quantity>, refused: set<(string, string)>) {
    m in values && values[m].Finite? && (userId, m) !in refused
  }

  /** The rows left by upserting each month of `months`, in order, with its value. */
  function MonthWrites(userId: string, months: seq<string>, values: map<string, Quantity>,
                       refused: set<(string, string)>): map<(string, string), real>
  {
    if months == [] then map[]
    else
      var before := MonthWrites(userId, months[..|months| - 1], values, refused);
      var m := months[|months| - 1];
      if Stored(userId, m, values, refused) then before[(userId, m) := values[m].value] else before
  }

  /** The rows written are exactly those of `userId` for the listed months
      whose upsert is stored, each holding its month's value. */
  lemma {:induction false} MonthWritesContent(userId: string, months: seq<string>, values: map<string, Quantity>,
                                              refused: set<(string, string)>)
    ensures forall k :: k in MonthWrites(userId, months, values, refused) <==>
      k.0 == userId && k.1 in months && Stored(userId, k.1, values, refused)
    ensures forall k :: k in MonthWrites(userId, months, values, refused) ==>
      Stored(userId, k.1, values, refused) && MonthWrites(userId, months, values, refused)[k] == values[k.1].value
  {
    if months != [] {
      var init := months[..|months| - 1];
      MonthWritesContent(userId, init, values, refused);
      assert months == init + [months[|months| - 1]];
    }
  }

  /** The same, for the row of one month. */
  lemma MonthWriteAt(userId: string, months: seq<string>, values: map<string, Quantity>,
                     refused: set<(string, string)>, m: string)
    ensures (userId, m) in MonthWrites(userId, months, values, refused) <==>
      m in months && Stored(userId, m, values, refused)
    ensures (userId, m) in MonthWrites(userId, months, values, refused) ==>
      MonthWrites(userId, months, values, refused)[(userId, m)] == values[m].value
  {
    MonthWritesContent(userId, months, values, refused);
  }

  /** Every row written belongs to `userId` and to one of the months asked for. */
  lemma MonthWritesOwnUser(userId: string, months: seq<string>, values: map<string, Quantity>,
                           refused: set<(string, string)>)
    ensures forall k :: k in MonthWrites(userId, months, values, refused) ==> k.0 == userId && k.1 in months
  {
    MonthWritesContent(userId, months, values, refused);
  }

  /** The `for ... of Object.entries(...)` loop: each month in turn is upserted
      with its value; a refused write is logged and the loop goes on. */
  method UpsertMonths(table: MonthTable, userId: string, months: seq<string>, values: map<string, Quantity>)
    requires forall m :: m in months ==> m in values
    modifies table`rows
    ensures table.rows == old(table.rows) + MonthWrites(userId, months, values, table.refused)
  {
    for j := 0 to |months|
      invariant table.rows == old(table.rows) + MonthWrites(userId, months[..j], values, table.refused)
    {
      var m := months[j];
      var total := values[m];
      assert months[..j + 1][..j] == months[..j];
      if total.Finite? {
        var written := table.Upsert((userId, m), total.value);
      }
    }
    assert months[..|months|] == months;
  }
}
