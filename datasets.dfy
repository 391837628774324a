/**
 * The values the chart works on. A dataset is a list of named series; a
 * series holds one cell per axis, and a cell is a number or a value that does
 * not convert to one (`QVariant::toDouble` reporting failure).
 */
module Datasets {
  import opened Wrappers

  /** A cell: `Some(x)` when it converts to the number `x`, `None` when it does not. */
  type Value = Option<real>

  /** One series of the chart: its name (the "label" entry) and its cells (the "data" entry). */
  datatype Series = Series(name: string, data: seq<Value>)

  /** The cell of `s` on axis `i`; cells past the end of the series are absent. */
  function Cell(s: Series, i: nat): Value {
    if i < |s.data| then s.data[i] else None
  }

  /** A cell read as a number, with 0 for an absent or non-numeric cell. */
  function OrZero(v: Value): real {
    if v.Some? then v.value else 0.0
  }
}
