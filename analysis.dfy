/** analysis.py, fetch_data: one pass over the fetched rows that totals
    income and expense and, per type, the amount per category. */
module Analysis {
  import opened Wrappers
  import opened Transactions

  /** The two types the aggregation sums; every other type is ignored. */
  datatype Kind = Income | Expense

  function Label(k: Kind): string {
    match k
    case Income => "Income"
    case Expense => "Expense"
  }

  /** `row[4] or "Uncategorized"`: NULL and the empty string become
      "Uncategorized", every other label is kept verbatim. */
  function DefaultCategory(c: Option<string>): (k: string)
    ensures k != ""
    ensures k == "Uncategorized" || (c.Some? && k == c.value)
    ensures c.Some? && c.value != "" ==> k == c.value
  {
    if c.None? || c.value == "" then "Uncategorized" else c.value
  }

  /** The four results: income, expense, income_totals, expense_totals. */
  datatype Summary = Summary(income: real, expense: real, incomeTotals: map<string, real>, expenseTotals: map<string, real>)

  const Empty := Summary(0.0, 0.0, map[], map[])

  function TotalOf(s: Summary, k: Kind): real {
    match k
    case Income => s.income
    case Expense => s.expense
  }

  function TotalsOf(s: Summary, k: Kind): map<string, real> {
    match k
    case Income => s.incomeTotals
    case Expense => s.expenseTotals
  }

  /** `totals[key] += amount` on a defaultdict(float). */
  function AddTo(m: map<string, real>, key: string, amount: real): map<string, real> {
    m[key := (if key in m then m[key] else 0.0) + amount]
  }

  /** One iteration of the loop. A row whose amount does not convert raises
      before any accumulator is touched and is skipped; a row of any type
      other than 'Income' or 'Expense' falls through both branches. */
  function Step(s: Summary, row: Row, parse: Parse): Summary {
    match parse(row.amount)
    case None => s
    case Some(amount) =>
      var category := DefaultCategory(row.category);
      if row.kind == "Income" then
        s.(income := s.income + amount, incomeTotals := AddTo(s.incomeTotals, category, amount))
      else if row.kind == "Expense" then
        s.(expense := s.expense + amount, expenseTotals := AddTo(s.expenseTotals, category, amount))
      else s
  }

  /** The loop run from state `s` over `rows`, in order. */
  function Run(s: Summary, rows: seq<Row>, parse: Parse): Summary
    decreases |rows|
  {
    if rows == [] then s
    else Step(Run(s, rows[..|rows| - 1], parse), rows[|rows| - 1], parse)
  }

  /** What fetch_data returns for the fetched rows. */
  function Aggregate(rows: seq<Row>, parse: Parse): Summary {
    Run(Empty, rows, parse)
  }

  // ---------------------------------------------------------------------
  // The sum of the values of a category map.

  ghost function PickKey(m: map<string, real>): (k: string)
    requires m != map[]
    ensures k in m
  {
    var k :| k in m; k
  }

  ghost function SumValues(m: map<string, real>): real
    decreases |m|
  {
    if m == map[] then 0.0
    else
      var k := PickKey(m);
      assert |m - {k}| == |m| - 1 by { assert (m - {k}).Keys == m.Keys - {k}; }
      m[k] + SumValues(m - {k})
  }

  /** SumValues does not depend on which key is taken out first. */
  lemma {:induction false} SumValuesRemove(m: map<string, real>, k: string)
    requires k in m
    ensures SumValues(m) == m[k] + SumValues(m - {k})
    decreases |m|
  {
    var j := PickKey(m);
    if j != k {
      assert (m - {j}).Keys == m.Keys - {j};
      assert (m - {k}).Keys == m.Keys - {k};
      SumValuesRemove(m - {j}, k);
      SumValuesRemove(m - {k}, j);
      assert m - {j} - {k} == m - {k} - {j};
    }
  }

  /** Adding `amount` under any key, new or existing, adds `amount` to the sum. */
  lemma SumValuesAddTo(m: map<string, real>, key: string, amount: real)
    ensures SumValues(AddTo(m, key, amount)) == SumValues(m) + amount
  {
    var m' := AddTo(m, key, amount);
    SumValuesRemove(m', key);
    assert m' - {key} == m - {key};
    if key in m {
      SumValuesRemove(m, key);
    } else {
      assert m - {key} == m;
    }
  }

  // ---------------------------------------------------------------------
  // Reference definitions and the lemmas tying Aggregate to them.

  /** The sum of the converted amounts of the rows of type `kind` whose
      defaulted category is `category`. */
  function CategorySum(rows: seq<Row>, kind: string, category: string, parse: Parse): real
    decreases |rows|
  {
    if rows == [] then 0.0
    else
      var last := rows[|rows| - 1];
      CategorySum(rows[..|rows| - 1], kind, category, parse)
        + (if DefaultCategory(last.category) == category then Contribution(last, kind, parse) else 0.0)
  }

  /** The defaulted category `category` occurs on some counted row of type `kind`. */
  predicate HasCategory(rows: seq<Row>, kind: string, category: string, parse: Parse) {
    exists i :: 0 <= i < |rows| && Counts(rows[i], kind, parse) && DefaultCategory(rows[i].category) == category
  }

  /** What one step does to the total and the map of one kind. */
  lemma StepProjection(s: Summary, row: Row, parse: Parse, k: Kind)
    ensures TotalOf(Step(s, row, parse), k) == TotalOf(s, k) + Contribution(row, Label(k), parse)
    ensures TotalsOf(Step(s, row, parse), k) ==
      if Counts(row, Label(k), parse)
      then AddTo(TotalsOf(s, k), DefaultCategory(row.category), parse(row.amount).value)
      else TotalsOf(s, k)
  {
  }

  /** income and expense are the sums of the convertible amounts of the
      rows whose type is exactly 'Income', respectively 'Expense'. */
  lemma {:induction false} AggregateTotal(rows: seq<Row>, parse: Parse, k: Kind)
    ensures TotalOf(Aggregate(rows, parse), k) == SumOfKind(rows, Label(k), parse)
    decreases |rows|
  {
    if rows != [] {
      AggregateTotal(rows[..|rows| - 1], parse, k);
      StepProjection(Aggregate(rows[..|rows| - 1], parse), rows[|rows| - 1], parse, k);
    }
  }

  /** The category totals of each type add up to that type's total. */
  lemma {:induction false} CategoryTotalsSum(rows: seq<Row>, parse: Parse, k: Kind)
    ensures SumValues(TotalsOf(Aggregate(rows, parse), k)) == TotalOf(Aggregate(rows, parse), k)
    decreases |rows|
  {
    if rows != [] {
      var prev := Aggregate(rows[..|rows| - 1], parse);
      var last := rows[|rows| - 1];
      CategoryTotalsSum(rows[..|rows| - 1], parse, k);
      StepProjection(prev, last, parse, k);
      if Counts(last, Label(k), parse) {
        SumValuesAddTo(TotalsOf(prev, k), DefaultCategory(last.category), parse(last.amount).value);
      }
    } else {
      assert TotalsOf(Empty, k) == map[];
    }
  }

  /** The keys of each map are exactly the defaulted categories of the
      counted rows of that type: no key is created for any other row. */
  lemma {:induction false} CategoryKeys(rows: seq<Row>, parse: Parse, k: Kind, category: string)
    ensures category in TotalsOf(Aggregate(rows, parse), k) <==> HasCategory(rows, Label(k), category, parse)
    decreases |rows|
  {
    if rows != [] {
      var init := rows[..|rows| - 1];
      var last := rows[|rows| - 1];
      CategoryKeys(init, parse, k, category);
      StepProjection(Aggregate(init, parse), last, parse, k);
      if HasCategory(init, Label(k), category, parse) {
        var i :| 0 <= i < |init| && Counts(init[i], Label(k), parse) && DefaultCategory(init[i].category) == category;
        assert rows[i] == init[i];
      }
      if HasCategory(rows, Label(k), category, parse) {
        var i :| 0 <= i < |rows| && Counts(rows[i], Label(k), parse) && DefaultCategory(rows[i].category) == category;
        if i < |init| {
          assert init[i] == rows[i];
        }
      }
    }
  }

  /** Each map entry holds the sum of the amounts of its category's rows. */
  lemma {:induction false} CategoryValues(rows: seq<Row>, parse: Parse, k: Kind, category: string)
    requires category in TotalsOf(Aggregate(rows, parse), k)
    ensures TotalsOf(Aggregate(rows, parse), k)[category] == CategorySum(rows, Label(k), category, parse)
    decreases |rows|
  {
    var init := rows[..|rows| - 1];
    var last := rows[|rows| - 1];
    var prev := Aggregate(init, parse);
    StepProjection(prev, last, parse, k);
    if category in TotalsOf(prev, k) {
      CategoryValues(init, parse, k, category);
    } else {
      CategorySumWithout(init, parse, k, category);
    }
  }

  /** A category that is not a key has accumulated nothing. */
  lemma {:induction false} CategorySumWithout(rows: seq<Row>, parse: Parse, k: Kind, category: string)
    requires category !in TotalsOf(Aggregate(rows, parse), k)
    ensures CategorySum(rows, Label(k), category, parse) == 0.0
    decreases |rows|
  {
    if rows != [] {
      var init := rows[..|rows| - 1];
      var last := rows[|rows| - 1];
      StepProjection(Aggregate(init, parse), last, parse, k);
      CategorySumWithout(init, parse, k, category);
    }
  }

  /** Running over a concatenation is running over each part in turn. */
  lemma {:induction false} RunAppend(s: Summary, a: seq<Row>, b: seq<Row>, parse: Parse)
    ensures Run(s, a + b, parse) == Run(Run(s, a, parse), b, parse)
    decreases |b|
  {
    if b == [] {
      assert a + b == a;
    } else {
      assert (a + b)[..|a + b| - 1] == a + b[..|b| - 1];
      RunAppend(s, a, b[..|b| - 1], parse);
    }
  }

  /** A row whose amount does not convert, or whose type is neither
      'Income' nor 'Expense', leaves all four results as if it were absent,
      wherever it stands. */
  lemma IgnoredRowInvisible(before: seq<Row>, row: Row, after: seq<Row>, parse: Parse)
    requires parse(row.amount).None? || (row.kind != "Income" && row.kind != "Expense")
    ensures Aggregate(before + [row] + after, parse) == Aggregate(before + after, parse)
  {
    RunAppend(Empty, before + [row], after, parse);
    RunAppend(Empty, before, [row], parse);
    RunAppend(Empty, before, after, parse);
    assert [row][..0] == [];
  }

  // ---------------------------------------------------------------------
  // The loop itself.

  /** fetch_data over the rows the store returned. */
  method FetchData(rows: seq<Row>, parse: Parse)
    returns (income: real, expense: real, incomeTotals: map<string, real>, expenseTotals: map<string, real>)
    ensures Summary(income, expense, incomeTotals, expenseTotals) == Aggregate(rows, parse)
    ensures income == SumOfKind(rows, "Income", parse) && expense == SumOfKind(rows, "Expense", parse)
    ensures SumValues(incomeTotals) == income && SumValues(expenseTotals) == expense
    ensures forall c :: c in incomeTotals ==> HasCategory(rows, "Income", c, parse)
    ensures forall c :: c in expenseTotals ==> HasCategory(rows, "Expense", c, parse)
    ensures rows == [] ==> income == 0.0 && expense == 0.0 && incomeTotals == map[] && expenseTotals == map[]
  {
    income, expense := 0.0, 0.0;
    incomeTotals, expenseTotals := map[], map[];
    for i := 0 to |rows|
      invariant Summary(income, expense, incomeTotals, expenseTotals) == Aggregate(rows[..i], parse)
    {
      assert rows[..i + 1][..i] == rows[..i];
      var row := rows[i];
      var converted := parse(row.amount);
      if converted.None? {
        continue;
      }
      var amount := converted.value;
      var category := DefaultCategory(row.category);
      if row.kind == "Income" {
        income := income + amount;
        incomeTotals := incomeTotals[category := (if category in incomeTotals then incomeTotals[category] else 0.0) + amount];
      } else if row.kind == "Expense" {
        expense := expense + amount;
        expenseTotals := expenseTotals[category := (if category in expenseTotals then expenseTotals[category] else 0.0) + amount];
      }
    }
    assert rows[..|rows|] == rows;
    AggregateTotal(rows, parse, Income);
    AggregateTotal(rows, parse, Expense);
    CategoryTotalsSum(rows, parse, Income);
    CategoryTotalsSum(rows, parse, Expense);
    forall c | c in incomeTotals ensures HasCategory(rows, "Income", c, parse) {
      CategoryKeys(rows, parse, Income, c);
    }
    forall c | c in expenseTotals ensures HasCategory(rows, "Expense", c, parse) {
      CategoryKeys(rows, parse, Expense, c);
    }
  }

  // ---------------------------------------------------------------------
  // Worked examples.

  /** Salary 1000 in, Food 200 and an uncategorised 50 out. */
  lemma FetchExample(parse: Parse)
    requires parse("1000") == Some(1000.0) && parse("200") == Some(200.0) && parse("50") == Some(50.0)
    ensures Aggregate([Row("2024-01-01", "Income", "1000", "", Some("Salary")),
                       Row("2024-01-02", "Expense", "200", "", Some("Food")),
                       Row("2024-01-03", "Expense", "50", "", Some(""))], parse)
         == Summary(1000.0, 250.0, map["Salary" := 1000.0], map["Food" := 200.0, "Uncategorized" := 50.0])
  {
    var r0 := Row("2024-01-01", "Income", "1000", "", Some("Salary"));
    var r1 := Row("2024-01-02", "Expense", "200", "", Some("Food"));
    var r2 := Row("2024-01-03", "Expense", "50", "", Some(""));
    var rows := [r0, r1, r2];
    assert rows[..2] == [r0, r1];
    assert rows[..2][..1] == [r0];
    assert [r0][..0] == [];
    assert Run(Empty, [r0][..0], parse) == Empty;
    assert DefaultCategory(r0.category) == "Salary";
    assert Aggregate([r0], parse) == Step(Empty, r0, parse);
    assert Aggregate([r0], parse) == Summary(1000.0, 0.0, map["Salary" := 1000.0], map[]);
    assert Aggregate([r0, r1], parse) == Summary(1000.0, 200.0, map["Salary" := 1000.0], map["Food" := 200.0]);
  }

  /** Labels differing in case or by a blank stay separate keys. */
  lemma CategoriesNotNormalised(parse: Parse)
    requires parse("10") == Some(10.0) && parse("5") == Some(5.0) && parse("1") == Some(1.0)
    ensures Aggregate([Row("d", "Expense", "10", "", Some("food")),
                       Row("d", "Expense", "5", "", Some("Food")),
                       Row("d", "Expense", "1", "", Some(" "))], parse).expenseTotals
         == map["food" := 10.0, "Food" := 5.0, " " := 1.0]
  {
    var r0 := Row("d", "Expense", "10", "", Some("food"));
    var r1 := Row("d", "Expense", "5", "", Some("Food"));
    var r2 := Row("d", "Expense", "1", "", Some(" "));
    var rows := [r0, r1, r2];
    assert rows[..2] == [r0, r1];
    assert rows[..2][..1] == [r0];
    assert [r0][..0] == [];
    assert Run(Empty, [r0][..0], parse) == Empty;
    assert Aggregate([r0], parse) == Step(Empty, r0, parse);
    assert Aggregate([r0], parse).expenseTotals == map["food" := 10.0];
    assert Aggregate([r0, r1], parse).expenseTotals == map["food" := 10.0, "Food" := 5.0];
  }
}
