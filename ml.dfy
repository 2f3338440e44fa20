/** ml.py, prepare_data: the expense series handed to the forecasting
    model, built by a chain of data-frame operations over the fetched rows. */
module Forecast {
  import opened Wrappers
  import opened Transactions

  /** pandas.to_datetime on one value: a timestamp (nanoseconds since the
      epoch), NaT for a missing value, or a string it cannot read. */
  datatype DateParse = At(t: int) | NaT | Malformed

  type DateConversion = string -> DateParse

  /** The frame after each stage: the columns named as the code names them. */
  datatype Projected = Projected(ds: string, amount: string)
  datatype Dated = Dated(ds: Option<int>, amount: string)
  datatype Coerced = Coerced(ds: Option<int>, amount: string, y: Option<real>)

  /** One observation of the prepared series: ds, the raw amount column
      that the rename leaves in place, and y. */
  datatype Point = Point(ds: int, amount: string, y: real)

  /** pd.to_datetime without errors="coerce" raises on the first value it
      cannot read; the whole preparation fails. */
  datatype PrepError = DateParseError

  /** `df[df["type"] == "Expense"]`. */
  function Expenses(rows: seq<Row>): seq<Row> {
    if rows == [] then []
    else (if rows[0].kind == "Expense" then [rows[0]] else []) + Expenses(rows[1..])
  }

  /** `df[["date", "amount"]].rename(columns={"date": "ds", "y": "amount"})`:
      description and category are dropped; the "y" entry of the mapping
      names no column, so "amount" keeps its name. */
  function Project(rows: seq<Row>): seq<Projected> {
    if rows == [] then []
    else [Projected(rows[0].date, rows[0].amount)] + Project(rows[1..])
  }

  /** `df["ds"] = pd.to_datetime(df["ds"])`. */
  function ToDatetime(frame: seq<Projected>, toDatetime: DateConversion): Result<seq<Dated>, PrepError> {
    if frame == [] then Success([])
    else
      match toDatetime(frame[0].ds)
      case Malformed => Failure(DateParseError)
      case _ =>
        var ds := match toDatetime(frame[0].ds) case At(t) => Some(t) case _ => None;
        match ToDatetime(frame[1..], toDatetime)
        case Failure(e) => Failure(e)
        case Success(rest) => Success([Dated(ds, frame[0].amount)] + rest)
  }

  /** `df["y"] = pd.to_numeric(df["amount"], errors="coerce")`: a value that
      does not convert becomes NaN, written None. */
  function ToNumeric(frame: seq<Dated>, toNumeric: Parse): seq<Coerced> {
    if frame == [] then []
    else [Coerced(frame[0].ds, frame[0].amount, toNumeric(frame[0].amount))] + ToNumeric(frame[1..], toNumeric)
  }

  /** `df.dropna(subset=["ds", "y"], inplace=True)`. */
  function DropNa(frame: seq<Coerced>): seq<Point> {
    if frame == [] then []
    else
      var rest := DropNa(frame[1..]);
      match (frame[0].ds, frame[0].y)
      case (Some(t), Some(y)) => [Point(t, frame[0].amount, y)] + rest
      case _ => rest
  }

  /** prepare_data over the rows the store returned. */
  function PrepareData(rows: seq<Row>, toDatetime: DateConversion, toNumeric: Parse): Result<seq<Point>, PrepError> {
    match ToDatetime(Project(Expenses(rows)), toDatetime)
    case Failure(e) => Failure(e)
    case Success(dated) => Success(DropNa(ToNumeric(dated, toNumeric)))
  }

  // ---------------------------------------------------------------------
  // Reference definitions.

  /** Some Expense row has a date that to_datetime cannot read. */
  predicate HasMalformedDate(rows: seq<Row>, toDatetime: DateConversion) {
    exists i :: 0 <= i < |rows| && rows[i].kind == "Expense" && toDatetime(rows[i].date).Malformed?
  }

  /** The row ends up in the series: an Expense row with a date and a numeric amount. */
  predicate Survives(row: Row, toDatetime: DateConversion, toNumeric: Parse) {
    row.kind == "Expense" && toDatetime(row.date).At? && toNumeric(row.amount).Some?
  }

  function PointOf(row: Row, toDatetime: DateConversion, toNumeric: Parse): Point
    requires Survives(row, toDatetime, toNumeric)
  {
    Point(toDatetime(row.date).t, row.amount, toNumeric(row.amount).value)
  }

  /** The surviving rows, in input order, each as its point. */
  function Survivors(rows: seq<Row>, toDatetime: DateConversion, toNumeric: Parse): seq<Point> {
    if rows == [] then []
    else
      (if Survives(rows[0], toDatetime, toNumeric) then [PointOf(rows[0], toDatetime, toNumeric)] else [])
        + Survivors(rows[1..], toDatetime, toNumeric)
  }

  // ---------------------------------------------------------------------
  // prepare_data against the reference.

  /** The stages after the filter, on a frame whose first row is `row`. */
  lemma {:induction false} StagesCons(row: Row, rows: seq<Row>, toDatetime: DateConversion, toNumeric: Parse)
    requires row.kind == "Expense"
    ensures ToDatetime(Project([row] + rows), toDatetime) ==
      if toDatetime(row.date).Malformed? then Failure(DateParseError)
      else match ToDatetime(Project(rows), toDatetime)
        case Failure(e) => Failure(e)
        case Success(dated) =>
          Success([Dated(match toDatetime(row.date) case At(t) => Some(t) case _ => None, row.amount)] + dated)
  {
    var all := [row] + rows;
    assert all[0] == row && all[1..] == rows;
    var pr := Project(all);
    assert pr[0] == Projected(row.date, row.amount);
    assert pr[1..] == Project(rows);
  }

  lemma {:induction false} CoerceCons(d: Dated, dated: seq<Dated>, toNumeric: Parse)
    ensures DropNa(ToNumeric([d] + dated, toNumeric)) ==
      (match (d.ds, toNumeric(d.amount))
       case (Some(t), Some(y)) => [Point(t, d.amount, y)]
       case _ => []) + DropNa(ToNumeric(dated, toNumeric))
  {
    var all := [d] + dated;
    assert all[0] == d && all[1..] == dated;
    var c := ToNumeric(all, toNumeric);
    assert c[0] == Coerced(d.ds, d.amount, toNumeric(d.amount));
    assert c[1..] == ToNumeric(dated, toNumeric);
  }

  lemma {:induction false} PrepareDataCons(row: Row, rows: seq<Row>, toDatetime: DateConversion, toNumeric: Parse)
    ensures PrepareData([row] + rows, toDatetime, toNumeric) ==
      if row.kind != "Expense" then PrepareData(rows, toDatetime, toNumeric)
      else if toDatetime(row.date).Malformed? then Failure(DateParseError)
      else match PrepareData(rows, toDatetime, toNumeric)
        case Failure(e) => Failure(e)
        case Success(points) =>
          Success((if Survives(row, toDatetime, toNumeric) then [PointOf(row, toDatetime, toNumeric)] else []) + points)
  {
    var all := [row] + rows;
    assert all[0] == row && all[1..] == rows;
    if row.kind == "Expense" {
      assert Expenses(all) == [row] + Expenses(rows);
      StagesCons(row, Expenses(rows), toDatetime, toNumeric);
      if !toDatetime(row.date).Malformed? {
        match ToDatetime(Project(Expenses(rows)), toDatetime)
        case Failure(e) =>
        case Success(dated) =>
          var ds := match toDatetime(row.date) case At(t) => Some(t) case _ => None;
          CoerceCons(Dated(ds, row.amount), dated, toNumeric);
      }
    } else {
      assert Expenses(all) == Expenses(rows);
    }
  }

  /** prepare_data fails exactly when some Expense row carries a date that
      to_datetime cannot read (an Income row's date is never looked at), and
      otherwise returns exactly the surviving rows, in order. */
  lemma {:induction false} PrepareDataMeaning(rows: seq<Row>, toDatetime: DateConversion, toNumeric: Parse)
    ensures PrepareData(rows, toDatetime, toNumeric).Failure? <==> HasMalformedDate(rows, toDatetime)
    ensures PrepareData(rows, toDatetime, toNumeric).Success? ==>
      PrepareData(rows, toDatetime, toNumeric).value == Survivors(rows, toDatetime, toNumeric)
    decreases |rows|
  {
    if rows != [] {
      var rest := rows[1..];
      PrepareDataMeaning(rest, toDatetime, toNumeric);
      assert rows == [rows[0]] + rest;
      PrepareDataCons(rows[0], rest, toDatetime, toNumeric);
      if HasMalformedDate(rest, toDatetime) {
        var i :| 0 <= i < |rest| && rest[i].kind == "Expense" && toDatetime(rest[i].date).Malformed?;
        assert rows[i + 1] == rest[i];
      }
      if HasMalformedDate(rows, toDatetime) {
        var i :| 0 <= i < |rows| && rows[i].kind == "Expense" && toDatetime(rows[i].date).Malformed?;
        if i > 0 { assert rest[i - 1] == rows[i]; }
      }
    }
  }

  /** `idx` picks the points `out` from `rows`, in order: the k-th point
      comes from row idx[k], a surviving row, and the indices strictly increase. */
  ghost predicate Picks(rows: seq<Row>, idx: seq<nat>, out: seq<Point>, toDatetime: DateConversion, toNumeric: Parse) {
    |idx| == |out| &&
    (forall k :: 0 <= k < |idx| ==> idx[k] < |rows| && Survives(rows[idx[k]], toDatetime, toNumeric) &&
                                    out[k] == PointOf(rows[idx[k]], toDatetime, toNumeric)) &&
    (forall k, l :: 0 <= k < l < |idx| ==> idx[k] < idx[l])
  }

  /** The series is an order-preserving selection of the input in which no
      row appears twice, and the rows selected are exactly the surviving ones. */
  lemma {:induction false} SurvivorsSelect(rows: seq<Row>, toDatetime: DateConversion, toNumeric: Parse)
    returns (idx: seq<nat>)
    ensures Picks(rows, idx, Survivors(rows, toDatetime, toNumeric), toDatetime, toNumeric)
    ensures forall i :: 0 <= i < |rows| && Survives(rows[i], toDatetime, toNumeric) ==> i in idx
    decreases |rows|
  {
    if rows == [] {
      idx := [];
    } else {
      var rest := rows[1..];
      var tail := SurvivorsSelect(rest, toDatetime, toNumeric);
      var shifted := seq(|tail|, k requires 0 <= k < |tail| => tail[k] + 1);
      ShiftPicks(rows, tail, shifted, toDatetime, toNumeric);
      var out := Survivors(rows, toDatetime, toNumeric);
      var outRest := Survivors(rest, toDatetime, toNumeric);
      if Survives(rows[0], toDatetime, toNumeric) {
        idx := [0] + shifted;
        assert out == [PointOf(rows[0], toDatetime, toNumeric)] + outRest;
        PrependPick(rows, shifted, outRest, toDatetime, toNumeric);
      } else {
        idx := shifted;
        assert out == outRest;
      }
      forall i | 0 <= i < |rows| && Survives(rows[i], toDatetime, toNumeric) ensures i in idx {
        if i > 0 {
          assert rest[i - 1] == rows[i];
          assert i - 1 in tail;
          var k :| 0 <= k < |tail| && tail[k] == i - 1;
          assert shifted[k] == i;
        }
      }
    }
  }

  lemma ShiftPicks(rows: seq<Row>, tail: seq<nat>, shifted: seq<nat>, toDatetime: DateConversion, toNumeric: Parse)
    requires rows != []
    requires Picks(rows[1..], tail, Survivors(rows[1..], toDatetime, toNumeric), toDatetime, toNumeric)
    requires |shifted| == |tail| && forall k :: 0 <= k < |tail| ==> shifted[k] == tail[k] + 1
    ensures Picks(rows, shifted, Survivors(rows[1..], toDatetime, toNumeric), toDatetime, toNumeric)
    ensures forall k :: 0 <= k < |shifted| ==> shifted[k] > 0
  {
    forall k | 0 <= k < |tail| ensures rows[shifted[k]] == rows[1..][tail[k]] {
    }
  }

  lemma PrependPick(rows: seq<Row>, shifted: seq<nat>, out: seq<Point>, toDatetime: DateConversion, toNumeric: Parse)
    requires rows != [] && Survives(rows[0], toDatetime, toNumeric)
    requires Picks(rows, shifted, out, toDatetime, toNumeric)
    requires forall k :: 0 <= k < |shifted| ==> shifted[k] > 0
    ensures Picks(rows, [0] + shifted, [PointOf(rows[0], toDatetime, toNumeric)] + out, toDatetime, toNumeric)
  {
    var idx := [0] + shifted;
    var o := [PointOf(rows[0], toDatetime, toNumeric)] + out;
    assert forall k :: 0 < k < |idx| ==> idx[k] == shifted[k - 1] && o[k] == out[k - 1];
  }

  /** The series never has more points than there are Expense rows. */
  lemma {:induction false} SurvivorsBound(rows: seq<Row>, toDatetime: DateConversion, toNumeric: Parse)
    ensures |Survivors(rows, toDatetime, toNumeric)| <= CountKind(rows, "Expense")
    decreases |rows|
  {
    if rows != [] {
      SurvivorsBound(rows[1..], toDatetime, toNumeric);
    }
  }

  /** Without Expense rows (an empty or all-Income table) the series is empty
      and preparation succeeds. */
  lemma {:induction false} NoExpensesNoSeries(rows: seq<Row>, toDatetime: DateConversion, toNumeric: Parse)
    requires forall i :: 0 <= i < |rows| ==> rows[i].kind != "Expense"
    ensures PrepareData(rows, toDatetime, toNumeric) == Success([])
    decreases |rows|
  {
    if rows != [] {
      assert rows == [rows[0]] + rows[1..];
      NoExpensesNoSeries(rows[1..], toDatetime, toNumeric);
      PrepareDataCons(rows[0], rows[1..], toDatetime, toNumeric);
    }
  }
}
