/** A row of an IFS table, `[a, b, c, d, e, f, p]`: the affine map
    x' = a x + b y + e, y' = c x + d y + f, and the selection weight p. */
module IfsTable {

  datatype Row = Row(a: real, b: real, c: real, d: real, e: real, f: real, p: real)

  /** The prefix sum of the weights of the first j rows. */
  function WeightSum(table: seq<Row>, j: nat): real
    requires j <= |table|
  {
    if j == 0 then 0.0 else WeightSum(table, j - 1) + table[j - 1].p
  }
}
