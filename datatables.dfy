/**
 The in-memory table the spreadsheet reader produces: named columns in sheet
 order and rows in sheet order, each cell either null (DBNull) or a raw value
 of the reader's own type `V`.
 */
module DataTables {

  datatype Option<T> = None | Some(value: T)

  /** The three culture-dependent checks the type inference applies to a
      cell's text: `int.TryParse`, `double.TryParse` and `DateTime.TryParse`
      of `val.ToString()`. They are parameters of the model, not defined by it. */
  datatype Parsers<!V> = Parsers(isInt: V -> bool, isDouble: V -> bool, isDate: V -> bool)

  /** A DataTable: every row holds one cell per column, in column order. */
  datatype Table<V> = Table(columns: seq<string>, rows: seq<seq<Option<V>>>) {

    /** Every row has exactly one cell per column (`row[column]` is defined). */
    predicate WellFormed() {
      forall i :: 0 <= i < |rows| ==> |rows[i]| == |columns|
    }

    /** The values of column `c`, in row order. */
    function Column(c: nat): seq<Option<V>>
      requires WellFormed() && c < |columns|
    {
      seq(|rows|, i requires 0 <= i < |rows| => rows[i][c])
    }
  }
}
