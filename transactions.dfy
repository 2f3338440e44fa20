/** The transaction row shared by every part of the tracker, and the
    reference sums the aggregations are proved against. */
module Transactions {
  import opened Wrappers

  /** One transaction as fetched from the store or read from the CSV file:
      (date, type, amount, description, category), every field as stored.
      `category` is None where the store holds NULL and, for the CSV file
      of the stand-alone application, always (that file has no such column). */
  datatype Row = Row(date: string, kind: string, amount: string, description: string, category: Option<string>)

  /** A conversion of a raw amount to a number: Python's float(), or pandas'
      to_numeric. None stands for "raises" (float) or "NaN" (to_numeric). */
  type Parse = string -> Option<real>

  /** Totals shown by "Calculate Balance". */
  datatype Balance = Balance(income: real, expense: real, balance: real)

  /** The row has exactly the type `kind` and an amount that converts. */
  predicate Counts(row: Row, kind: string, parse: Parse) {
    row.kind == kind && parse(row.amount).Some?
  }

  function Contribution(row: Row, kind: string, parse: Parse): real {
    if Counts(row, kind, parse) then parse(row.amount).value else 0.0
  }

  /** The sum of the converted amounts of the rows of type `kind`. */
  function SumOfKind(rows: seq<Row>, kind: string, parse: Parse): real
    decreases |rows|
  {
    if rows == [] then 0.0
    else SumOfKind(rows[..|rows| - 1], kind, parse) + Contribution(rows[|rows| - 1], kind, parse)
  }

  /** The number of rows whose type is exactly `kind`. */
  function CountKind(rows: seq<Row>, kind: string): nat {
    if rows == [] then 0
    else (if rows[0].kind == kind then 1 else 0) + CountKind(rows[1..], kind)
  }
}
