/** main.py: the stand-alone tracker that keeps its transactions in a CSV
    file with the columns Date, Type, Amount, Description. Modelled are the
    amount check of add_transaction and calculate_balance. */
module MainApp {
  import opened Wrappers
  import opened Text
  import opened Transactions
  import Gui

  /** `amount.strip().isdigit()`: digits only, so no decimal point. */
  predicate IsAmount(s: string) {
    IsDigits(Strip(s))
  }

  /** This check is strictly stricter than the one of the database-backed
      window: whatever it accepts that one accepts too, but not conversely. */
  lemma StricterThanGui(s: string)
    ensures IsAmount(s) ==> Gui.IsAmount(s)
    ensures Gui.IsAmount("12.5") && !IsAmount("12.5")
  {
    if IsAmount(s) {
      var t := Strip(s);
      FindSpec(t, '.');
      DeleteFirstSpec(t, '.');
      assert '.' !in t;
    }
    Gui.StripBare("12.5");
    assert DeleteFirst("12.5", '.') == "125";
    assert "12.5"[2] == '.';
  }

  /** The entry form. The type box is read-only with the values Income and
      Expense. `written` lists, oldest first, the records appended to the
      CSV file; the file has no category column, so their category is None. */
  class ExpenseTracker {
    var typeVar: string
    var amountVar: string
    var descVar: string
    var written: seq<Row>

    ghost predicate Valid()
      reads this
    {
      Gui.Counted(typeVar) &&
      forall i :: 0 <= i < |written| ==> WellFormed(written[i])
    }

    /** setup_ui: the type starts as Expense, the text fields empty. */
    constructor ()
      ensures Valid()
      ensures typeVar == "Expense" && amountVar == "" && descVar == "" && written == []
    {
      typeVar := "Expense";
      amountVar := "";
      descVar := "";
      written := [];
    }

    method SelectType(kind: string)
      requires Valid() && Gui.Counted(kind)
      modifies this`typeVar
      ensures Valid() && typeVar == kind
    {
      typeVar := kind;
    }

    /** add_transaction; `now` is the current time as
        `strftime("%Y-%m-%d %H:%M:%S")` writes it. A rejected amount returns
        before anything is written; an accepted one appends exactly one
        record with the amount as typed, then clears amount and description. */
    method AddTransaction(now: string) returns (added: bool)
      requires Valid()
      modifies this
      ensures Valid()
      ensures added <==> IsAmount(old(amountVar))
      ensures !added ==> unchanged(this)
      ensures added ==>
        written == old(written) + [Row(now, old(typeVar), old(amountVar), old(descVar), None)] &&
        amountVar == "" && descVar == "" && typeVar == old(typeVar)
    {
      var kind := typeVar;
      var amount := amountVar;
      var desc := descVar;
      if !IsAmount(amount) {
        return false;
      }
      var row := Row(now, kind, amount, desc, None);
      assert WellFormed(row);
      ghost var before := written;
      written := written + [row];
      assert forall i :: 0 <= i < |written| ==> written[i] == if i < |before| then before[i] else row;
      amountVar := "";
      descVar := "";
      added := true;
    }
  }

  /** What every record written through the form satisfies. */
  predicate WellFormed(row: Row) {
    IsAmount(row.amount) && Gui.Counted(row.kind) && row.category.None?
  }

  /** Every amount in the file converts: calculate_balance converts the
      amount of every record, before looking at its type. */
  predicate AmountsConvert(rows: seq<Row>, parse: Parse) {
    forall i :: 0 <= i < |rows| ==> parse(rows[i].amount).Some?
  }

  /** calculate_balance over the records after the header. None stands for
      float() raising, which ends the computation, whatever the record's type. */
  method CalculateBalance(rows: seq<Row>, parse: Parse) returns (r: Option<Balance>)
    ensures r.Some? <==> AmountsConvert(rows, parse)
    ensures r.Some? ==>
      r.value.income == SumOfKind(rows, "Income", parse) &&
      r.value.expense == SumOfKind(rows, "Expense", parse) &&
      r.value.balance == r.value.income - r.value.expense
    ensures rows == [] ==> r == Some(Balance(0.0, 0.0, 0.0))
  {
    var income, expense := 0.0, 0.0;
    for i := 0 to |rows|
      invariant income == SumOfKind(rows[..i], "Income", parse)
      invariant expense == SumOfKind(rows[..i], "Expense", parse)
      invariant AmountsConvert(rows[..i], parse)
    {
      assert rows[..i + 1][..i] == rows[..i];
      var row := rows[i];
      var converted := parse(row.amount);
      if converted.None? {
        return None;
      }
      var amount := converted.value;
      if row.kind == "Income" {
        income := income + amount;
      } else if row.kind == "Expense" {
        expense := expense + amount;
      }
      assert forall j :: 0 <= j < i ==> rows[..i + 1][j] == rows[..i][j];
    }
    assert rows[..|rows|] == rows;
    r := Some(Balance(income, expense, income - expense));
  }

  /** Where the two balance computations part: whenever this one succeeds the
      other does too, and a record of another type with an amount that does
      not convert fails this one but not the other. */
  lemma ConversionOrder(rows: seq<Row>, parse: Parse, junk: string)
    requires parse(junk).None?
    ensures AmountsConvert(rows, parse) ==> Gui.CountedAmountsConvert(rows, parse)
    ensures var extra := rows + [Row("", "Transfer", junk, "", None)];
      !AmountsConvert(extra, parse) &&
      (Gui.CountedAmountsConvert(rows, parse) ==> Gui.CountedAmountsConvert(extra, parse))
  {
    var extra := rows + [Row("", "Transfer", junk, "", None)];
    assert extra[|rows|].amount == junk;
    assert forall i :: 0 <= i < |rows| ==> extra[i] == rows[i];
  }
}
