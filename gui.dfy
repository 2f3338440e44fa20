/** gui.py: the database-backed tracker window. Modelled are the amount
    check and the row composed by add_transaction, and calculate_balance. */
module Gui {
  import opened Wrappers
  import opened Text
  import opened Transactions

  // ---------------------------------------------------------------------
  // The amount check of add_transaction.

  /** `amount.strip().replace('.', '', 1).isdigit()`. */
  predicate IsAmount(s: string) {
    IsDigits(DeleteFirst(Strip(s), '.'))
  }

  /** A plain decimal numeral: digits with at most one '.', and at least one digit. */
  predicate DecimalShape(t: string) {
    |t| > 0 && t != "." &&
    (forall i :: 0 <= i < |t| ==> IsDigit(t[i]) || t[i] == '.') &&
    (forall i, j :: 0 <= i < j < |t| ==> !(t[i] == '.' && t[j] == '.'))
  }

  lemma DeleteFirstDotDigits(t: string)
    ensures IsDigits(DeleteFirst(t, '.')) <==> DecimalShape(t)
  {
    FindSpec(t, '.');
    DeleteFirstSpec(t, '.');
    match Find(t, '.')
    case None =>
    case Some(i) =>
      var r := t[..i] + t[i + 1..];
      assert forall k :: 0 <= k < |r| ==> r[k] == (if k < i then t[k] else t[k + 1]);
      if IsDigits(r) {
        forall k | 0 <= k < |t| && k != i ensures IsDigit(t[k]) {
          if k < i { assert r[k] == t[k]; } else { assert r[k - 1] == t[k]; }
        }
        assert |t| != 1;
      }
      if DecimalShape(t) {
        forall k | 0 <= k < |r| ensures IsDigit(r[k]) {
          if k < i {
            assert r[k] == t[k] && t[k] != '.';
          } else {
            assert r[k] == t[k + 1];
            assert !(t[i] == '.' && t[k + 1] == '.');
          }
        }
        assert |t| >= 2;
      }
  }

  /** The amount is accepted exactly when, stripped of surrounding
      whitespace, it is a plain decimal numeral; no sign, no exponent. */
  lemma AmountAccepted(s: string)
    ensures IsAmount(s) <==> DecimalShape(Strip(s))
  {
    StripSpec(s);
    DeleteFirstDotDigits(Strip(s));
  }

  /** A string with no surrounding whitespace strips to itself. */
  lemma StripBare(s: string)
    requires s == [] || (!IsSpace(s[0]) && !IsSpace(s[|s| - 1]))
    ensures Strip(s) == s
  {
    StripPadded([], s, []);
    assert [] + s + [] == s;
  }

  /** Rejected: empty, signed, and two dots. */
  lemma RejectedExamples()
    ensures !IsAmount("") && !IsAmount("-5") && !IsAmount("+5") && !IsAmount("1.2.3")
  {
    assert !IsAmount("") by { AmountAccepted(""); }
    assert !IsAmount("-5") by { StripBare("-5"); AmountAccepted("-5"); assert "-5"[0] == '-'; }
    assert !IsAmount("+5") by { StripBare("+5"); AmountAccepted("+5"); assert "+5"[0] == '+'; }
    assert !IsAmount("1.2.3") by {
      StripBare("1.2.3");
      AmountAccepted("1.2.3");
      assert "1.2.3"[1] == '.' && "1.2.3"[3] == '.';
    }
  }

  /** Accepted: a trailing dot, a leading dot, two decimals, and a number
      surrounded by whitespace. */
  lemma AcceptedExamples()
    ensures IsAmount("5.") && IsAmount(".5") && IsAmount("12.50") && IsAmount(" 7\t")
  {
    assert IsAmount(" 7\t") by {
      StripPadded(" ", "7", "\t");
      assert " " + "7" + "\t" == " 7\t";
    }
    assert IsAmount("5.") by {
      StripBare("5.");
      assert DeleteFirst("5.", '.') == "5";
    }
    assert IsAmount(".5") by {
      StripBare(".5");
      assert DeleteFirst(".5", '.') == "5";
    }
    assert IsAmount("12.50") by {
      StripBare("12.50");
      assert DeleteFirst("12.50", '.') == "1250";
    }
  }

  // ---------------------------------------------------------------------
  // The stored date: the selected date, a blank and the clock time.

  /** `datetime.now().strftime("%H:%M:%S")` for the given time of day. */
  function ClockString(hour: nat, minute: nat, second: nat): (r: string)
    requires hour < 24 && minute < 60 && second < 60
    ensures |r| == 8 && r[2] == ':' && r[5] == ':'
  {
    Pad2(hour) + ":" + Pad2(minute) + ":" + Pad2(second)
  }

  /** The clock string reads back as the same hour, minute and second. */
  lemma ClockRoundTrip(hour: nat, minute: nat, second: nat)
    requires hour < 24 && minute < 60 && second < 60
    ensures var r := ClockString(hour, minute, second);
      IsDigits(r[0..2]) && IsDigits(r[3..5]) && IsDigits(r[6..8]) &&
      DigitsValue(r[0..2]) == hour && DigitsValue(r[3..5]) == minute && DigitsValue(r[6..8]) == second
  {
    var r := ClockString(hour, minute, second);
    assert r[0..2] == Pad2(hour);
    assert r[3..5] == Pad2(minute);
    assert r[6..8] == Pad2(second);
    Pad2RoundTrip(hour);
    Pad2RoundTrip(minute);
    Pad2RoundTrip(second);
  }

  /** The date column value: `f"{selected_date} {current_time}"`. */
  function StampedDate(selectedDate: string, hour: nat, minute: nat, second: nat): string
    requires hour < 24 && minute < 60 && second < 60
  {
    selectedDate + " " + ClockString(hour, minute, second)
  }

  /** The stored date splits back into the selected date and the clock time. */
  lemma StampedDateParts(selectedDate: string, hour: nat, minute: nat, second: nat)
    requires hour < 24 && minute < 60 && second < 60
    ensures var r := StampedDate(selectedDate, hour, minute, second);
      |r| == |selectedDate| + 9 && r[..|selectedDate|] == selectedDate && r[|selectedDate|] == ' ' &&
      r[|selectedDate| + 1..] == ClockString(hour, minute, second)
  {
    var r := StampedDate(selectedDate, hour, minute, second);
    assert r == selectedDate + (" " + ClockString(hour, minute, second));
  }

  // ---------------------------------------------------------------------
  // The entry form.

  /** How add_transaction ends: the amount check fails (error box, return),
      insert_transaction raises (the exception leaves the method), or the row
      is written. */
  datatype AddOutcome = Rejected | StoreFailed | Added

  /** What every row written through the form satisfies: an accepted
      amount, one of the two types, and a category (possibly empty). */
  predicate WellFormed(row: Row) {
    IsAmount(row.amount) && Counted(row.kind) && row.category.Some?
  }

  /** The form of the tracker window. The type box is read-only with the
      values Income and Expense; the other fields are free text. `inserted`
      lists, oldest first, the rows handed to insert_transaction. */
  class ExpenseTracker {
    var dateEntry: string
    var typeVar: string
    var amountVar: string
    var descVar: string
    var categoryVar: string
    var inserted: seq<Row>

    ghost predicate Valid()
      reads this
    {
      Counted(typeVar) && forall i :: 0 <= i < |inserted| ==> WellFormed(inserted[i])
    }

    /** setup_ui: the type starts as Expense, the text fields empty. */
    constructor (today: string)
      ensures Valid()
      ensures dateEntry == today && typeVar == "Expense"
      ensures amountVar == "" && descVar == "" && categoryVar == ""
      ensures inserted == []
    {
      dateEntry := today;
      typeVar := "Expense";
      amountVar := "";
      descVar := "";
      categoryVar := "";
      inserted := [];
    }

    /** Picking a value in the read-only type box. */
    method SelectType(kind: string)
      requires Valid() && Counted(kind)
      modifies this`typeVar
      ensures Valid() && typeVar == kind
    {
      typeVar := kind;
    }

    /** add_transaction, at the given time of day; `storeOk` says whether
        insert_transaction returns or raises. A rejected amount writes nothing
        and leaves the form as it was. A raising insert leaves the method
        before the fields are cleared and commits nothing. An accepted amount
        with a working store writes exactly one row, with the amount as typed
        (unstripped), then clears amount, description and category and keeps
        type and date. */
    method AddTransaction(hour: nat, minute: nat, second: nat, storeOk: bool) returns (outcome: AddOutcome)
      requires Valid() && hour < 24 && minute < 60 && second < 60
      modifies this
      ensures Valid()
      ensures outcome == if !IsAmount(old(amountVar)) then Rejected else if storeOk then Added else StoreFailed
      ensures outcome != Added ==> unchanged(this)
      ensures outcome == Added ==>
        inserted == old(inserted) + [Row(StampedDate(old(dateEntry), hour, minute, second),
                                         old(typeVar), old(amountVar), old(descVar), Some(old(categoryVar)))] &&
        amountVar == "" && descVar == "" && categoryVar == "" &&
        typeVar == old(typeVar) && dateEntry == old(dateEntry)
    {
      var date := StampedDate(dateEntry, hour, minute, second);
      var kind := typeVar;
      var amount := amountVar;
      var desc := descVar;
      var category := categoryVar;
      if !IsAmount(amount) {
        return Rejected;
      }
      if !storeOk {
        return StoreFailed;
      }
      var row := Row(date, kind, amount, desc, Some(category));
      assert WellFormed(row);
      ghost var before := inserted;
      inserted := inserted + [row];
      assert forall i :: 0 <= i < |inserted| ==> inserted[i] == if i < |before| then before[i] else row;
      amountVar := "";
      descVar := "";
      categoryVar := "";
      outcome := Added;
    }
  }

  // ---------------------------------------------------------------------
  // calculate_balance over the (type, amount) pairs of the store.

  predicate Counted(kind: string) {
    kind == "Income" || kind == "Expense"
  }

  /** Every amount that calculate_balance converts does convert: only the
      amounts of 'Income' and 'Expense' rows are ever handed to float(). */
  predicate CountedAmountsConvert(rows: seq<Row>, parse: Parse) {
    forall i :: 0 <= i < |rows| && Counted(rows[i].kind) ==> parse(rows[i].amount).Some?
  }

  /** On rows written through the form, whose types are all Income or
      Expense, calculate_balance converts every amount: it succeeds exactly
      when all of them convert. */
  lemma FormRowsAllConverted(rows: seq<Row>, parse: Parse)
    requires forall i :: 0 <= i < |rows| ==> WellFormed(rows[i])
    ensures CountedAmountsConvert(rows, parse) <==> forall i :: 0 <= i < |rows| ==> parse(rows[i].amount).Some?
  {
  }

  /** calculate_balance. None stands for float() raising, which ends the
      computation; an amount on a row of any other type is never converted. */
  method CalculateBalance(rows: seq<Row>, parse: Parse) returns (r: Option<Balance>)
    ensures r.Some? <==> CountedAmountsConvert(rows, parse)
    ensures r.Some? ==>
      r.value.income == SumOfKind(rows, "Income", parse) &&
      r.value.expense == SumOfKind(rows, "Expense", parse) &&
      r.value.balance == r.value.income - r.value.expense
    ensures rows == [] ==> r == Some(Balance(0.0, 0.0, 0.0))
  {
    var income, expense := 0.0, 0.0;
    for i := 0 to |rows|
      invariant income == SumOfKind(rows[..i], "Income", parse)
      invariant expense == SumOfKind(rows[..i], "Expense", parse)
      invariant CountedAmountsConvert(rows[..i], parse)
    {
      assert rows[..i + 1][..i] == rows[..i];
      var row := rows[i];
      if row.kind == "Income" {
        var amount := parse(row.amount);
        if amount.None? {
          return None;
        }
        income := income + amount.value;
      } else if row.kind == "Expense" {
        var amount := parse(row.amount);
        if amount.None? {
          return None;
        }
        expense := expense + amount.value;
      }
      assert forall j :: 0 <= j < i ==> rows[..i + 1][j] == rows[..i][j];
    }
    assert rows[..|rows|] == rows;
    r := Some(Balance(income, expense, income - expense));
  }
}
