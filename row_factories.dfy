/**
 * The row factories the CSV parser applies to each data row: `IntegerFactory`, which
 * reads a one-cell row as a 32-bit integer, and `ListStringFactory`, which keeps the
 * row's cells as they are. A factory that cannot convert a row fails with that row,
 * as `FactoryFailureException` carries it.
 */
module RowFactories {
  import opened Wrappers
  import Text

  /** `FactoryFailureException`: the row a factory could not convert. */
  datatype FactoryFailure = FactoryFailure(row: seq<string>)

  /** `CreatorFromRow<T>`: one row's cells to an object, or a failure on that row. */
  type Creator<T> = seq<string> -> Result<T, FactoryFailure>

  /** `IntegerFactory.create`: a row of exactly one cell holding a 32-bit decimal integer. */
  function IntegerCreate(row: seq<string>): (r: Result<int, FactoryFailure>)
    ensures r.Failure? ==> r.error == FactoryFailure(row)
    ensures r.Success? ==> |row| == 1 && Text.INT_MIN <= r.value <= Text.INT_MAX
  {
    if |row| != 1 then Failure(FactoryFailure(row))
    else
      match Text.ParseInt(row[0])
      case None => Failure(FactoryFailure(row))
      case Some(v) => Success(v)
  }

  /** `ListStringFactory.create`: the row itself; it never fails, whatever the row's length. */
  function ListStringCreate(row: seq<string>): (r: Result<seq<string>, FactoryFailure>)
    ensures r.Success? && r.value == row
  {
    Success(row)
  }

  /** A row of other than one cell is rejected whatever it holds. */
  lemma IntegerNeedsOneCell(row: seq<string>)
    requires |row| != 1
    ensures IntegerCreate(row) == Failure(FactoryFailure(row))
  {
  }

  /**
   * A cell is accepted only if it is an optional sign followed by at least one
   * decimal digit: the empty cell and cells with other characters are rejected.
   */
  lemma IntegerAcceptsNumeralsOnly(cell: string)
    ensures IntegerCreate([cell]).Success? ==>
      var start := if cell[0] == '-' || cell[0] == '+' then 1 else 0;
      |cell| > start && Text.AllDigits(cell[start..])
  {
  }

  /**
   * A one-cell row holding an optionally signed decimal numeral is read as the
   * numeral's value exactly when that value is a 32-bit integer; outside that
   * range the factory fails.
   */
  lemma IntegerNumeralValue(m: string)
    requires |m| > 0 && Text.AllDigits(m)
    ensures Text.DigitsValue(m) <= Text.INT_MAX ==>
      IntegerCreate([m]) == Success(Text.DigitsValue(m) as int) &&
      IntegerCreate(["+" + m]) == Success(Text.DigitsValue(m) as int)
    ensures Text.DigitsValue(m) > Text.INT_MAX ==>
      IntegerCreate([m]).Failure? && IntegerCreate(["+" + m]).Failure?
    ensures Text.DigitsValue(m) <= -Text.INT_MIN ==>
      IntegerCreate(["-" + m]) == Success(-(Text.DigitsValue(m) as int))
    ensures Text.DigitsValue(m) > -Text.INT_MIN ==> IntegerCreate(["-" + m]).Failure?
  {
    if Text.DigitsValue(m) <= Text.INT_MAX {
      Text.ParseUnsigned(m);
      Text.ParsePlus(m);
    } else {
      Text.ParseOutOfRange(m);
    }
    if Text.DigitsValue(m) <= -Text.INT_MIN {
      Text.ParseNegative(m);
    } else {
      Text.ParseNegativeOutOfRange(m);
    }
  }

  /** Every 32-bit integer written in decimal is read back by the factory. */
  lemma IntegerRoundTrip(i: int)
    requires Text.INT_MIN <= i <= Text.INT_MAX
    ensures IntegerCreate([Text.IntToString(i)]) == Success(i)
  {
    Text.IntRoundTrip(i);
  }
}
