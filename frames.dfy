/** A pandas DataFrame as the backend sees it: a map from column name to
    the column's cells, with every column as long as the frame has rows.
    Cells carry what `read_csv` can produce (text, integers, floats) and
    the missing value (NaN/None). */
module Frames {
  import opened Common

  datatype Cell = Str(text: string) | Int(i: int) | Num(r: real) | Missing

  type Column = seq<Cell>

  type Frame = map<string, Column>

  /** Every column of `df` holds exactly `n` cells: the shape of a DataFrame with `n` rows. */
  predicate Rectangular(df: Frame, n: nat) {
    forall c :: c in df ==> |df[c]| == n
  }

  /** `df[c] = v` for a scalar `v`: pandas broadcasts it to every row. */
  function Constant(v: Cell, n: nat): (col: Column)
    ensures |col| == n
    ensures forall k :: 0 <= k < n ==> col[k] == v
  {
    seq(n, _ => v)
  }

  /** A Python exception: its class and the text `str(e)` gives. */
  datatype PyError = PyError(kind: string, message: string)

  /** `df[c]` on an absent column raises KeyError, whose text is the quoted name. */
  function KeyError(column: string): PyError {
    PyError("KeyError", "'" + column + "'")
  }

  /** Python equality of two cell values (`==` on the objects): NaN equals nothing,
      an integer equals the float of the same value, text never equals a number. */
  predicate SameValue(a: Cell, b: Cell) {
    match (a, b)
    case (Str(x), Str(y)) => x == y
    case (Int(x), Int(y)) => x == y
    case (Int(x), Num(y)) => x as real == y
    case (Num(x), Int(y)) => x == y as real
    case (Num(x), Num(y)) => x == y
    case _ => false
  }
}
