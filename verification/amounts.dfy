/** Money columns as the views read them through `Number(…)`, and the
    column totals shown under the expense tables. */
module Amounts {

  /** A value after `Number(…)`: a number, or NaN for text that is not one
      and for a missing field. */
  datatype Num = Finite(n: real) | NaN

  /** JavaScript truthiness of a number: NaN and 0 are falsy. */
  predicate Truthy(x: Num)
  {
    x.Finite? && x.n != 0.0
  }

  /** `x || 0`. */
  function OrZero(x: Num): real
  {
    if Truthy(x) then x.n else 0.0
  }

  /** One table row: each field's value as `Number(row[field])` reads it. */
  type Row = map<string, Num>

  /** `Number(row[field]) || 0`; a missing field reads as undefined, so 0. */
  function Cell(row: Row, field: string): real
  {
    if field in row then OrZero(row[field]) else 0.0
  }

  /** The running total `reduce` builds, left to right. */
  function ColumnSum(rows: seq<Row>, field: string): real
  {
    if |rows| == 0 then 0.0 else ColumnSum(rows[..|rows| - 1], field) + Cell(rows[|rows| - 1], field)
  }

  /** getTotalAmount(field): the sum of the column, non-numbers counting 0. */
  method TotalAmount(rows: seq<Row>, field: string) returns (sum: real)
    ensures sum == ColumnSum(rows, field)
  {
    sum := 0.0;
    var i := 0;
    while i < |rows|
      invariant 0 <= i <= |rows|
      invariant sum == ColumnSum(rows[..i], field)
    {
      assert rows[..i + 1][..i] == rows[..i];
      sum := sum + Cell(rows[i], field);
      i := i + 1;
    }
    assert rows[..|rows|] == rows;
  }

  function Sum(xs: seq<real>): real
  {
    if |xs| == 0 then 0.0 else xs[0] + Sum(xs[1..])
  }

  /** The numeric entries of a column, in row order. */
  function NumericCells(rows: seq<Row>, field: string): seq<real>
  {
    if |rows| == 0 then []
    else
      var head := if field in rows[0] && rows[0][field].Finite? then [rows[0][field].n] else [];
      head + NumericCells(rows[1..], field)
  }

  lemma {:induction false} SumAppend(a: seq<real>, b: seq<real>)
    ensures Sum(a + b) == Sum(a) + Sum(b)
  {
    if |a| > 0 {
      SumAppend(a[1..], b);
      assert (a + b)[1..] == a[1..] + b;
    } else {
      assert a + b == b;
    }
  }

  /** The total splits over a concatenation of row lists. */
  lemma {:induction false} ColumnSumAppend(a: seq<Row>, b: seq<Row>, field: string)
    ensures ColumnSum(a + b, field) == ColumnSum(a, field) + ColumnSum(b, field)
    decreases |b|
  {
    if |b| > 0 {
      var b' := b[..|b| - 1];
      assert (a + b)[..|a + b| - 1] == a + b';
      ColumnSumAppend(a, b', field);
    } else {
      assert a + b == a;
    }
  }

  /** Non-numeric entries count as zero: the total is the plain sum of the
      column's numeric entries. */
  lemma {:induction false} TotalIsSumOfNumbers(rows: seq<Row>, field: string)
    ensures ColumnSum(rows, field) == Sum(NumericCells(rows, field))
  {
    if |rows| > 0 {
      TotalIsSumOfNumbers(rows[1..], field);
      ColumnSumAppend([rows[0]], rows[1..], field);
      assert [rows[0]] + rows[1..] == rows;
      var head := if field in rows[0] && rows[0][field].Finite? then [rows[0][field].n] else [];
      SumAppend(head, NumericCells(rows[1..], field));
      assert ColumnSum([rows[0]], field) == Cell(rows[0], field) by {
        assert [rows[0]][..0] == [];
      }
    }
  }

  /** A column whose entries are all non-negative has a non-negative total. */
  lemma {:induction false} TotalNonNegative(rows: seq<Row>, field: string)
    requires forall i :: 0 <= i < |rows| ==> Cell(rows[i], field) >= 0.0
    ensures ColumnSum(rows, field) >= 0.0
  {
    if |rows| > 0 {
      TotalNonNegative(rows[..|rows| - 1], field);
    }
  }
}
