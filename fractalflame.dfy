/** The fractal-flame builder: each step draws k in proportion to the total
    weight of the table and walks the table, applying every entry whose running
    weight sum reaches k or whose weight is exactly 1 (an affine map, a weighted
    sum of variations, the final transform and a colour update), and stopping
    after the first applied entry whose weight is not 1. The variation loop
    reuses the selection variable k as its counter, so after an applied entry
    the walk compares the running sums with -1. A plotted point adds
    one to the alpha of its pixel, which thus counts hits up to 255. The first
    11 steps of the very first iteration are not plotted. */
module FractalFlame {
  import Cursor
  import opened Wrappers
  import opened Raster
  import opened IfsTable

  /** Steps per computed iteration. */
  const Step: nat := 1000000
  /** On iteration 0, the steps i = 0 .. BurnIn move the point without plotting. */
  const BurnIn: nat := 10
  /** Canvas pixels per unit of the flame's coordinates. */
  const Zoom: real := 50.0

  /** getColor: the red channel of a plot, round(c * 255) capped at 255
      (JavaScript rounds halves up); green and blue are 0. */
  function GetColor(c: real): (red: int)
    ensures red <= 255
    ensures red as real <= c * 255.0 + 0.5
    ensures c * 255.0 < 254.5 ==> c * 255.0 - 0.5 < red as real
    ensures c * 255.0 >= 254.5 ==> red == 255
  {
    var scaled := (c * 255.0 + 0.5).Floor;
    if scaled < 255 then scaled else 255
  }

  /** A colour in [0, 1] gives a red channel in 0 .. 255 within 0.5 of c * 255. */
  lemma GetColorOfUnit(c: real)
    requires 0.0 <= c <= 1.0
    ensures 0 <= GetColor(c) <= 255
    ensures -0.5 <= GetColor(c) as real - c * 255.0 <= 0.5
  {
    assert 0.0 <= c * 255.0 <= 255.0;
  }

  /** One entry of the flame table: coefficients a .. f with weight p, the
      variation weights, and the colour weight. */
  datatype Entry = Entry(c: Row, vv: seq<real>, colorWeight: real)

  /** The coefficient rows of a table, whose weights drive the selection. */
  function Coeffs(table: seq<Entry>): (rows: seq<Row>)
    ensures |rows| == |table| && forall j :: 0 <= j < |table| ==> rows[j] == table[j].c
  {
    seq(|table|, j requires 0 <= j < |table| => table[j].c)
  }

  /** A point of the plane, as a variation returns it. */
  datatype Vec = Vec(x: real, y: real)

  /** What the final transform returns: the point and a colour. */
  datatype Final = Final(x: real, y: real, color: real)

  /** The variations: V(k, x, y) is variation k at (x, y). */
  type Variation = (nat, real, real) -> Vec

  /** The weighted sum of the variations k = m .. |vv| - 1, added from the last
      one down; a variation whose weight is 0 is not evaluated. */
  function VarSum(V: Variation, vv: seq<real>, x: real, y: real, m: nat): Vec
    requires m <= |vv|
    decreases |vv| - m
  {
    if m == |vv| then Vec(0.0, 0.0)
    else
      var rest := VarSum(V, vv, x, y, m + 1);
      if vv[m] != 0.0 then AddWeighted(rest, V(m, x, y), vv[m]) else rest
  }

  /** acc + v * w, componentwise. */
  function AddWeighted(acc: Vec, v: Vec, w: real): Vec
  {
    Vec(acc.x + v.x * w, acc.y + v.y * w)
  }

  /** Only the variations with a non-zero weight matter: two variation tables
      that agree on them give the same sum. */
  lemma {:induction false} VarSumOnlyWeighted(V: Variation, W: Variation, vv: seq<real>, x: real, y: real, m: nat)
    requires m <= |vv|
    requires forall k :: m <= k < |vv| && vv[k] != 0.0 ==> V(k, x, y) == W(k, x, y)
    ensures VarSum(V, vv, x, y, m) == VarSum(W, vv, x, y, m)
    decreases |vv| - m
  {
    if m < |vv| {
      VarSumOnlyWeighted(V, W, vv, x, y, m + 1);
    }
  }

  /** With a single weighted variation the sum is that variation, scaled. */
  lemma {:induction false} VarSumSingle(V: Variation, vv: seq<real>, x: real, y: real, m: nat, k: nat)
    requires m <= k < |vv|
    requires forall n :: m <= n < |vv| && n != k ==> vv[n] == 0.0
    ensures VarSum(V, vv, x, y, m) == Vec(V(k, x, y).x * vv[k], V(k, x, y).y * vv[k])
    decreases |vv| - m
  {
    if m < k {
      VarSumSingle(V, vv, x, y, m + 1, k);
    } else {
      VarSumNone(V, vv, x, y, m + 1);
    }
  }

  lemma {:induction false} VarSumNone(V: Variation, vv: seq<real>, x: real, y: real, m: nat)
    requires m <= |vv|
    requires forall n :: m <= n < |vv| ==> vv[n] == 0.0
    ensures VarSum(V, vv, x, y, m) == Vec(0.0, 0.0)
    decreases |vv| - m
  {
    if m < |vv| {
      VarSumNone(V, vv, x, y, m + 1);
    }
  }

  /** Everything a computed iteration depends on besides the starting point. */
  datatype Flame = Flame(table: seq<Entry>, V: Variation, final: (real, real) -> Final,
                         width: nat, height: nat, offsetX: int, offsetY: int,
                         iteration: nat, draws: seq<real>)

  /** The moving point, its colour, and the buffer being plotted into. */
  datatype Point = Point(x: real, y: real, color: real, data: seq<Byte>)

  predicate Plotted(f: Flame, i: nat)
  {
    f.iteration > 0 || i > BurnIn
  }

  /** The bounds guard: pixels on row 0, on column 0 and outside the canvas are
      not plotted. */
  predicate OnCanvas(f: Flame, px: int, py: int)
  {
    0 < px < f.width && 0 < py < f.height
  }

  /** The alpha of a hit: one more than the pixel had, capped at 255. A pixel
      that cannot be read gives NaN, which a clamped byte array stores as 0. */
  function HitAlpha(pixel: Option<Rgba>): (a: Byte)
    ensures pixel.Some? ==> pixel.value.a <= a && (a == pixel.value.a + 1 || a == 255)
    ensures pixel.Some? && pixel.value.a < 255 ==> a == pixel.value.a + 1
  {
    if pixel.None? then 0 else if pixel.value.a < 255 then pixel.value.a + 1 else 255
  }

  /** The affine map of a row: x' = a x + b y + e, y' = c x + d y + f. */
  function AffineX(c: Row, x: real, y: real): real
  {
    c.a * x + c.b * y + c.e
  }

  function AffineY(c: Row, x: real, y: real): real
  {
    c.c * x + c.d * y + c.f
  }

  /** Where entry j moves the point and its colour, before plotting: the
      affine map, the weighted variations, the colour midpoint with the
      entry's colour weight, and the final transform, whose third component
      is averaged with the colour to give the colour of the plot. */
  datatype Moved = Moved(x: real, y: real, color: real, finalColor: real)

  function Move(f: Flame, p: Point, j: nat): Moved
    requires j < |f.table|
  {
    var e := f.table[j];
    var s := VarSum(f.V, e.vv, AffineX(e.c, p.x, p.y), AffineY(e.c, p.x, p.y), 0);
    var color := (p.color + e.colorWeight) / 2.0;
    var fin := f.final(s.x, s.y);
    Moved(fin.x, fin.y, color, (color + fin.color) / 2.0)
  }

  /** The canvas pixel of a point: zoomed, shifted by the offset and floored. */
  function PixelX(f: Flame, x: real): int
  {
    (x * Zoom + f.offsetX as real).Floor
  }

  function PixelY(f: Flame, y: real): int
  {
    (y * Zoom + f.offsetY as real).Floor
  }

  /** The plot of step i for a point at (x, y): after the burn-in and inside
      the guard, the pixel gets the red of the colour and one more alpha. */
  function Hit(f: Flame, data: seq<Byte>, i: nat, x: real, y: real, finalColor: real): (r: seq<Byte>)
    ensures |r| == |data|
  {
    var px, py := PixelX(f, x), PixelY(f, y);
    if Plotted(f, i) && OnCanvas(f, px, py) then
      var alpha := HitAlpha(GetPixel(data, f.width, px as real, py as real));
      SetPixel(data, f.width, px as real, py as real, Rgba(Clamp(GetColor(finalColor)), 0, 0, alpha))
    else data
  }

  /** Entry j applied to the point during step i. */
  function Apply(f: Flame, p: Point, i: nat, j: nat): (q: Point)
    requires j < |f.table|
    ensures |q.data| == |p.data|
  {
    var m := Move(f, p, j);
    Point(m.x, m.y, m.color, Hit(f, p.data, i, m.x, m.y, m.finalColor))
  }

  /** The selection walk from entry j, `sum` being the weight of the entries
      before it: an entry is applied when the running sum reaches k or its
      weight is exactly 1, and the walk stops after the first applied entry
      whose weight is not 1. The variation loop of an applied entry uses k as
      its counter and leaves it at -1, so the rest of the walk compares the
      running sum with -1. */
  function Pick(f: Flame, p: Point, i: nat, k: real, j: nat, sum: real): (q: Point)
    requires j <= |f.table|
    ensures |q.data| == |p.data|
    decreases |f.table| - j
  {
    if j == |f.table| then p
    else
      var w := f.table[j].c.p;
      var s := sum + w;
      if s >= k || w == 1.0 then
        var q := Apply(f, p, i, j);
        if w != 1.0 then q else Pick(f, q, i, -1.0, j + 1, s)
      else Pick(f, p, i, k, j + 1, s)
  }

  /** The total weight of the table. */
  function Total(f: Flame): real
  {
    WeightSum(Coeffs(f.table), |f.table|)
  }

  /** The k of a step: the draw r scaled by the total weight. */
  function Drawn(r: real, total: real): real
  {
    r * total
  }

  /** Step i: the draw scaled by the total weight selects the entries. */
  function StepAt(f: Flame, p: Point, i: nat): (q: Point)
    requires i < |f.draws|
    ensures |q.data| == |p.data|
  {
    Pick(f, p, i, Drawn(f.draws[i], Total(f)), 0, 0.0)
  }

  /** The point after the first n steps. */
  function Run(f: Flame, start: Point, n: nat): (p: Point)
    requires n <= |f.draws|
    ensures |p.data| == |start.data|
  {
    if n == 0 then start else StepAt(f, Run(f, start, n - 1), n - 1)
  }

  // Which entries one walk applies.

  /** The running sum of the first m + 1 weights reaches k. */
  predicate Reaches(rows: seq<Row>, k: real, m: nat)
    requires m < |rows|
  {
    WeightSum(rows, m + 1) >= k
  }

  /** Entry m ends the walk if it is reached: it is applied and its weight is not 1. */
  predicate Stops(rows: seq<Row>, k: real, m: nat)
    requires m < |rows|
  {
    Reaches(rows, k, m) && rows[m].p != 1.0
  }

  /** The entries the walk from j applies, in order, with k kept as drawn. */
  function Applied(rows: seq<Row>, k: real, j: nat, sum: real): seq<nat>
    requires j <= |rows|
    decreases |rows| - j
  {
    if j == |rows| then []
    else
      var w := rows[j].p;
      var s := sum + w;
      if s >= k || w == 1.0 then [j] + (if w != 1.0 then [] else Applied(rows, k, j + 1, s))
      else Applied(rows, k, j + 1, s)
  }

  /** The entries the walk applies as the source is written: the variation
      loop reuses k as its counter and leaves it at -1, so after any applied
      entry k is -1 for the rest of the walk. */
  function AppliedAsWritten(rows: seq<Row>, k: real, j: nat, sum: real): seq<nat>
    requires j <= |rows|
    decreases |rows| - j
  {
    if j == |rows| then []
    else
      var w := rows[j].p;
      var s := sum + w;
      if s >= k || w == 1.0 then [j] + (if w != 1.0 then [] else AppliedAsWritten(rows, -1.0, j + 1, s))
      else AppliedAsWritten(rows, k, j + 1, s)
  }

  /** With weights [1, 0.5, 0.5] and the draw 0.9 (k = 1.8), the walk as
      written applies entries 0 and 1, although the running sum reaches k only
      at entry 2; the intended walk applies entries 0 and 2. */
  lemma KReuseCounterexample()
    ensures var rows := [Row(1.0, 0.0, 0.0, 1.0, 0.0, 0.0, 1.0), Row(1.0, 0.0, 0.0, 1.0, 0.0, 0.0, 0.5),
                         Row(1.0, 0.0, 0.0, 1.0, 0.0, 0.0, 0.5)];
      var k := 0.9 * WeightSum(rows, 3);
      k == 1.8 && !Reaches(rows, k, 1) && Reaches(rows, k, 2) &&
      AppliedAsWritten(rows, k, 0, 0.0) == [0, 1] && Applied(rows, k, 0, 0.0) == [0, 2]
  {
    var rows := [Row(1.0, 0.0, 0.0, 1.0, 0.0, 0.0, 1.0), Row(1.0, 0.0, 0.0, 1.0, 0.0, 0.0, 0.5),
                 Row(1.0, 0.0, 0.0, 1.0, 0.0, 0.0, 0.5)];
    var k := 0.9 * WeightSum(rows, 3);
    assert WeightSum(rows, 1) == 1.0;
    assert WeightSum(rows, 2) == 1.5;
    assert WeightSum(rows, 3) == 2.0;
    assert AppliedAsWritten(rows, -1.0, 2, 1.5) == [2];
    assert AppliedAsWritten(rows, -1.0, 1, 1.0) == [1];
    assert Applied(rows, k, 2, 1.5) == [2];
    assert Applied(rows, k, 1, 1.0) == [2];
  }

  /** The intended walk applies exactly the entries m at or after j whose
      weight is 1 or whose running sum reaches k, and that no earlier
      stopping entry precedes. */
  lemma {:induction false} AppliedExactly(rows: seq<Row>, k: real, j: nat, m: nat)
    requires j <= m < |rows|
    ensures m in Applied(rows, k, j, WeightSum(rows, j)) <==>
      (rows[m].p == 1.0 || Reaches(rows, k, m)) && forall n :: j <= n < m ==> !Stops(rows, k, n)
    decreases |rows| - j
  {
    var sum := WeightSum(rows, j);
    assert WeightSum(rows, j + 1) == sum + rows[j].p;
    AppliedAfter(rows, k, j + 1, WeightSum(rows, j + 1));
    if m > j {
      AppliedExactly(rows, k, j + 1, m);
      if Stops(rows, k, j) {
        assert !(forall n :: j <= n < m ==> !Stops(rows, k, n));
      } else {
        assert (forall n :: j <= n < m ==> !Stops(rows, k, n)) <==> (forall n :: j + 1 <= n < m ==> !Stops(rows, k, n));
      }
    }
  }

  /** A walk from j applies only entries at or after j, in increasing order. */
  lemma {:induction false} AppliedAfter(rows: seq<Row>, k: real, j: nat, sum: real)
    requires j <= |rows|
    ensures forall n :: 0 <= n < |Applied(rows, k, j, sum)| ==> j <= Applied(rows, k, j, sum)[n] < |rows|
    ensures forall n, n' :: 0 <= n < n' < |Applied(rows, k, j, sum)| ==>
      Applied(rows, k, j, sum)[n] < Applied(rows, k, j, sum)[n']
    decreases |rows| - j
  {
    if j < |rows| {
      AppliedAfter(rows, k, j + 1, sum + rows[j].p);
    }
  }

  /** The walk as written applies only entries at or after j. */
  lemma {:induction false} AppliedAsWrittenAfter(rows: seq<Row>, k: real, j: nat, sum: real)
    requires j <= |rows|
    ensures forall n :: 0 <= n < |AppliedAsWritten(rows, k, j, sum)| ==> j <= AppliedAsWritten(rows, k, j, sum)[n] < |rows|
    decreases |rows| - j
  {
    if j < |rows| {
      AppliedAsWrittenAfter(rows, k, j + 1, sum + rows[j].p);
      AppliedAsWrittenAfter(rows, -1.0, j + 1, sum + rows[j].p);
    }
  }

  /** Entry m is applied by the walk as written exactly when it is the first
      entry from j of weight 1 or whose running sum reaches k, or when it
      follows an applied entry of weight 1 (weights being non-negative). */
  predicate Hits(rows: seq<Row>, k: real, m: nat)
    requires m < |rows|
  {
    rows[m].p == 1.0 || Reaches(rows, k, m)
  }

  predicate NonNegative(rows: seq<Row>)
  {
    forall n :: 0 <= n < |rows| ==> 0.0 <= rows[n].p
  }

  lemma {:induction false} AppliedAsWrittenExactly(rows: seq<Row>, k: real, j: nat, m: nat)
    requires j <= m < |rows| && NonNegative(rows)
    ensures m in AppliedAsWritten(rows, k, j, WeightSum(rows, j)) <==>
      (Hits(rows, k, m) && forall n :: j <= n < m ==> !Hits(rows, k, n)) ||
      (j < m && m - 1 in AppliedAsWritten(rows, k, j, WeightSum(rows, j)) && rows[m - 1].p == 1.0)
    decreases |rows| - j
  {
    var s := WeightSum(rows, j + 1);
    assert s == WeightSum(rows, j) + rows[j].p;
    if !Hits(rows, k, j) {
      assert AppliedAsWritten(rows, k, j, WeightSum(rows, j)) == AppliedAsWritten(rows, k, j + 1, s);
      AppliedAsWrittenAfter(rows, k, j + 1, s);
      if j < m {
        AppliedAsWrittenExactly(rows, k, j + 1, m);
        ExactlyFromMiss(rows, k, j, m);
      }
    } else if rows[j].p != 1.0 {
      assert AppliedAsWritten(rows, k, j, WeightSum(rows, j)) == [j];
    } else if j < m {
      assert AppliedAsWritten(rows, k, j, WeightSum(rows, j)) == [j] + AppliedAsWritten(rows, -1.0, j + 1, s);
      WeightSumNonNegative(rows, j + 1);
      ExactlyAfterOne(rows, k, j, m, s);
    } else {
      assert AppliedAsWritten(rows, k, j, WeightSum(rows, j))[0] == j;
    }
  }

  /** The case of AppliedAsWrittenExactly where entry j has weight 1 and is
      applied, so the rest of the walk runs with k at -1. */
  lemma ExactlyAfterOne(rows: seq<Row>, k: real, j: nat, m: nat, s: real)
    requires j < m < |rows| && NonNegative(rows) && rows[j].p == 1.0 && 0.0 <= s
    ensures var js := [j] + AppliedAsWritten(rows, -1.0, j + 1, s);
      m in js <==> m - 1 in js && rows[m - 1].p == 1.0
  {
    var js := [j] + AppliedAsWritten(rows, -1.0, j + 1, s);
    AppliedAsWrittenAfter(rows, -1.0, j + 1, s);
    AppliedAfterReset(rows, j + 1, s, m);
    assert m in js <==> m in AppliedAsWritten(rows, -1.0, j + 1, s);
    if j < m - 1 {
      AppliedAfterReset(rows, j + 1, s, m - 1);
      assert m - 1 in js <==> m - 1 in AppliedAsWritten(rows, -1.0, j + 1, s);
      assert (forall t :: j + 1 <= t < m ==> rows[t].p == 1.0) <==>
        (rows[m - 1].p == 1.0 && forall t :: j + 1 <= t < m - 1 ==> rows[t].p == 1.0);
    } else {
      assert js[0] == m - 1;
    }
  }

  /** The case of AppliedAsWrittenExactly where entry j is passed over, given
      the characterization from j + 1. */
  lemma ExactlyFromMiss(rows: seq<Row>, k: real, j: nat, m: nat)
    requires j < m < |rows| && !Hits(rows, k, j)
    requires var s := WeightSum(rows, j + 1);
      m in AppliedAsWritten(rows, k, j + 1, s) <==>
      (Hits(rows, k, m) && forall n :: j + 1 <= n < m ==> !Hits(rows, k, n)) ||
      (j + 1 < m && m - 1 in AppliedAsWritten(rows, k, j + 1, s) && rows[m - 1].p == 1.0)
    ensures m in AppliedAsWritten(rows, k, j, WeightSum(rows, j)) <==>
      (Hits(rows, k, m) && forall n :: j <= n < m ==> !Hits(rows, k, n)) ||
      (j < m && m - 1 in AppliedAsWritten(rows, k, j, WeightSum(rows, j)) && rows[m - 1].p == 1.0)
  {
    var s := WeightSum(rows, j + 1);
    assert s == WeightSum(rows, j) + rows[j].p;
    assert AppliedAsWritten(rows, k, j, WeightSum(rows, j)) == AppliedAsWritten(rows, k, j + 1, s);
    AppliedAsWrittenAfter(rows, k, j + 1, s);
    assert (forall n :: j <= n < m ==> !Hits(rows, k, n)) <==> (forall n :: j + 1 <= n < m ==> !Hits(rows, k, n));
  }

  /** Once an entry has been applied, k is -1: with non-negative weights every
      following entry is applied, up to and including the first whose weight
      is not 1. */
  lemma {:induction false} AppliedAfterReset(rows: seq<Row>, j: nat, sum: real, m: nat)
    requires j <= m < |rows| && NonNegative(rows) && 0.0 <= sum
    ensures m in AppliedAsWritten(rows, -1.0, j, sum) <==> forall t :: j <= t < m ==> rows[t].p == 1.0
    decreases |rows| - j
  {
    var s := sum + rows[j].p;
    AppliedAsWrittenAfter(rows, -1.0, j + 1, s);
    if j < m && rows[j].p == 1.0 {
      AppliedAfterReset(rows, j + 1, s, m);
    }
  }

  lemma {:induction false} WeightSumNonNegative(rows: seq<Row>, j: nat)
    requires j <= |rows| && NonNegative(rows)
    ensures 0.0 <= WeightSum(rows, j)
  {
    if j > 0 {
      WeightSumNonNegative(rows, j - 1);
    }
  }

  /** As written, with non-negative weights, the entry right after an applied
      entry of weight 1 is always applied, whatever the draw. */
  lemma AfterWeightOneApplied(rows: seq<Row>, k: real, n: nat)
    requires n + 1 < |rows| && NonNegative(rows) && rows[n].p == 1.0
    requires n in AppliedAsWritten(rows, k, 0, 0.0)
    ensures n + 1 in AppliedAsWritten(rows, k, 0, 0.0)
  {
    AppliedAsWrittenExactly(rows, k, 0, n + 1);
  }

  /** The walk applies its entries one after the other. */
  function ApplyAll(f: Flame, p: Point, i: nat, js: seq<nat>): Point
    requires forall n :: 0 <= n < |js| ==> js[n] < |f.table|
    decreases |js|
  {
    if js == [] then p else ApplyAll(f, Apply(f, p, i, js[0]), i, js[1..])
  }

  /** The selection walk of a step applies the entries AppliedAsWritten lists. */
  lemma {:induction false} PickAppliesSelected(f: Flame, p: Point, i: nat, k: real, j: nat, sum: real)
    requires j <= |f.table|
    ensures forall n :: 0 <= n < |AppliedAsWritten(Coeffs(f.table), k, j, sum)| ==>
      AppliedAsWritten(Coeffs(f.table), k, j, sum)[n] < |f.table|
    ensures Pick(f, p, i, k, j, sum) == ApplyAll(f, p, i, AppliedAsWritten(Coeffs(f.table), k, j, sum))
    decreases |f.table| - j
  {
    AppliedAsWrittenAfter(Coeffs(f.table), k, j, sum);
    if j < |f.table| {
      var w := f.table[j].c.p;
      if sum + w >= k || w == 1.0 {
        PickAppliesSelected(f, Apply(f, p, i, j), i, -1.0, j + 1, sum + w);
        var js := AppliedAsWritten(Coeffs(f.table), k, j, sum);
        assert js[1..] == if w != 1.0 then [] else AppliedAsWritten(Coeffs(f.table), -1.0, j + 1, sum + w);
      } else {
        PickAppliesSelected(f, p, i, k, j + 1, sum + w);
      }
    }
  }

  // Properties of the computed iterations.

  lemma RunLastStep(f: Flame, start: Point, n: nat)
    requires 0 < n <= |f.draws|
    ensures Run(f, start, n) == Pick(f, Run(f, start, n - 1), n - 1, Drawn(f.draws[n - 1], Total(f)), 0, 0.0)
  {
    var p := Run(f, start, n - 1);
    assert Run(f, start, n) == StepAt(f, p, n - 1);
    var k := Drawn(f.draws[n - 1], Total(f));
    assert StepAt(f, p, n - 1) == Pick(f, p, n - 1, k, 0, 0.0);
  }

  /** Burn-in: on iteration 0 the first BurnIn + 1 steps leave the image as it was. */
  lemma {:induction false} BurnInPlotsNothing(f: Flame, start: Point, n: nat)
    requires n <= |f.draws| && f.iteration == 0 && n <= BurnIn + 1
    ensures Run(f, start, n).data == start.data
  {
    if n > 0 {
      BurnInPlotsNothing(f, start, n - 1);
      RunLastStep(f, start, n);
      PickUnplotted(f, Run(f, start, n - 1), n - 1, Drawn(f.draws[n - 1], Total(f)), 0, 0.0);
    }
  }

  lemma {:induction false} PickUnplotted(f: Flame, p: Point, i: nat, k: real, j: nat, sum: real)
    requires j <= |f.table| && !Plotted(f, i)
    ensures Pick(f, p, i, k, j, sum).data == p.data
    decreases |f.table| - j
  {
    if j < |f.table| {
      PickUnplotted(f, Apply(f, p, i, j), i, -1.0, j + 1, sum + f.table[j].c.p);
      PickUnplotted(f, p, i, k, j + 1, sum + f.table[j].c.p);
    }
  }

  /** The colour is the running midpoint of colour weights: with every colour
      weight in [0, 1] and a start in [0, 1] it stays in [0, 1]. */
  lemma {:induction false} ColourStaysInUnit(f: Flame, start: Point, n: nat)
    requires n <= |f.draws|
    requires forall j :: 0 <= j < |f.table| ==> 0.0 <= f.table[j].colorWeight <= 1.0
    requires 0.0 <= start.color <= 1.0
    ensures 0.0 <= Run(f, start, n).color <= 1.0
  {
    if n > 0 {
      ColourStaysInUnit(f, start, n - 1);
      RunLastStep(f, start, n);
      PickColour(f, Run(f, start, n - 1), n - 1, Drawn(f.draws[n - 1], Total(f)), 0, 0.0);
    }
  }

  lemma {:induction false} PickColour(f: Flame, p: Point, i: nat, k: real, j: nat, sum: real)
    requires j <= |f.table|
    requires forall j :: 0 <= j < |f.table| ==> 0.0 <= f.table[j].colorWeight <= 1.0
    requires 0.0 <= p.color <= 1.0
    ensures 0.0 <= Pick(f, p, i, k, j, sum).color <= 1.0
    decreases |f.table| - j
  {
    if j < |f.table| {
      PickColour(f, Apply(f, p, i, j), i, -1.0, j + 1, sum + f.table[j].c.p);
      PickColour(f, p, i, k, j + 1, sum + f.table[j].c.p);
    }
  }

  /** The plotted red channel: with the colour and the final transform's
      colour in [0, 1], it is their midpoint scaled to 0 .. 255 and rounded. */
  lemma PlottedRed(color: real, w: real, finalColor: real)
    requires 0.0 <= color <= 1.0 && 0.0 <= w <= 1.0 && 0.0 <= finalColor <= 1.0
    ensures var mid := ((color + w) / 2.0 + finalColor) / 2.0;
      0.0 <= mid <= 1.0 && Clamp(GetColor(mid)) == GetColor(mid) &&
      -0.5 <= GetColor(mid) as real - mid * 255.0 <= 0.5
  {
    var mid := ((color + w) / 2.0 + finalColor) / 2.0;
    GetColorOfUnit(mid);
  }

  /** Byte b belongs to a pixel on row 0 or on column 0 of an image of the given width. */
  predicate OnEdge(width: nat, b: int)
  {
    b / 4 < width || (width > 0 && (b / 4) % width == 0)
  }

  /** A pixel on row 0 or column 0 is never written, whatever the steps. */
  lemma {:induction false} EdgesUntouched(f: Flame, start: Point, n: nat, j: int)
    requires n <= |f.draws|
    requires 0 <= j < |start.data| && OnEdge(f.width, j)
    ensures Run(f, start, n).data[j] == start.data[j]
  {
    if n > 0 {
      EdgesUntouched(f, start, n - 1, j);
      RunLastStep(f, start, n);
      PickEdges(f, Run(f, start, n - 1), n - 1, Drawn(f.draws[n - 1], Total(f)), 0, 0.0, j);
    }
  }

  lemma {:induction false} PickEdges(f: Flame, p: Point, i: nat, k: real, j: nat, sum: real, b: int)
    requires j <= |f.table|
    requires 0 <= b < |p.data| && OnEdge(f.width, b)
    ensures Pick(f, p, i, k, j, sum).data[b] == p.data[b]
    decreases |f.table| - j
  {
    if j < |f.table| {
      ApplyEdges(f, p, i, j, b);
      PickEdges(f, Apply(f, p, i, j), i, -1.0, j + 1, sum + f.table[j].c.p, b);
      PickEdges(f, p, i, k, j + 1, sum + f.table[j].c.p, b);
    }
  }

  lemma ApplyEdges(f: Flame, p: Point, i: nat, j: nat, b: int)
    requires j < |f.table|
    requires 0 <= b < |p.data| && OnEdge(f.width, b)
    ensures Apply(f, p, i, j).data[b] == p.data[b]
  {
    var m := Move(f, p, j);
    HitEdges(f, p.data, i, m.x, m.y, m.finalColor, b);
  }

  lemma HitEdges(f: Flame, data: seq<Byte>, i: nat, x: real, y: real, finalColor: real, b: int)
    requires 0 <= b < |data| && OnEdge(f.width, b)
    ensures Hit(f, data, i, x, y, finalColor)[b] == data[b]
  {
    var px, py := PixelX(f, x), PixelY(f, y);
    if Plotted(f, i) && OnCanvas(f, px, py) {
      var c := Rgba(Clamp(GetColor(finalColor)), 0, 0, HitAlpha(GetPixel(data, f.width, px as real, py as real)));
      InteriorPixel(f.width, px, py, b / 4);
      assert Offset(f.width, px as real, py as real) == (py * f.width + px) * 4;
      assert b - b % 4 == 4 * (b / 4);
      SetPixelElsewhere(data, f.width, px as real, py as real, c, b);
    }
  }

  /** The pixel (px, py) with 0 < px < width and 0 < py is neither on row 0
      nor on column 0. */
  lemma InteriorPixel(width: nat, px: int, py: int, q: int)
    requires 0 < px < width && 0 < py && 0 <= q
    requires q < width || q % width == 0
    ensures py * width + px != q
  {
    MulAtLeast(py, width);
    if q >= width && py * width + px == q {
      var d := q / width;
      assert q == width * d;
      assert px == width * (d - py);
      NoMultipleBetween(width, d - py);
    }
  }

  lemma MulAtLeast(a: int, w: nat)
    requires a >= 1
    ensures a * w >= w
  {
    assert a * w == (a - 1) * w + w;
  }

  lemma NoMultipleBetween(w: nat, c: int)
    requires w > 0
    ensures !(0 < w * c < w)
  {
    if c >= 1 {
      MulAtLeast(c, w);
    }
  }

  /** The pixel of a plot lies inside an image of width * height pixels. */
  lemma PixelInside(width: nat, height: nat, px: int, py: int)
    requires 0 < px < width && 0 < py < height
    ensures 0 <= (py * width + px) * 4 && (py * width + px) * 4 + 4 <= width * height * 4
  {
    MulAtLeast(py, width);
    assert (py + 1) * width <= height * width by {
      MulAtLeast(height - py, width);
      assert height * width == (py + 1) * width + (height - py - 1) * width;
    }
  }

  /** Alpha counts hits: on an image of the canvas size, no step decreases the
      alpha of any pixel. */
  lemma {:induction false} AlphaNeverDecreases(f: Flame, start: Point, n: nat, j: int)
    requires n <= |f.draws| && |start.data| == f.width * f.height * 4
    requires 0 <= j < |start.data| && j % 4 == 3
    ensures start.data[j] <= Run(f, start, n).data[j]
  {
    if n > 0 {
      AlphaNeverDecreases(f, start, n - 1, j);
      RunLastStep(f, start, n);
      PickAlpha(f, Run(f, start, n - 1), n - 1, Drawn(f.draws[n - 1], Total(f)), 0, 0.0, j);
    }
  }

  lemma {:induction false} PickAlpha(f: Flame, p: Point, i: nat, k: real, j: nat, sum: real, b: int)
    requires j <= |f.table| && |p.data| == f.width * f.height * 4
    requires 0 <= b < |p.data| && b % 4 == 3
    ensures p.data[b] <= Pick(f, p, i, k, j, sum).data[b]
    decreases |f.table| - j
  {
    if j < |f.table| {
      var m := Move(f, p, j);
      HitRaisesAlpha(f, p.data, i, m.x, m.y, m.finalColor, b);
      PickAlpha(f, Apply(f, p, i, j), i, -1.0, j + 1, sum + f.table[j].c.p, b);
      PickAlpha(f, p, i, k, j + 1, sum + f.table[j].c.p, b);
    }
  }

  /** A plot into an image of the canvas size raises the alpha of its pixel
      by one, capped at 255, and changes no other alpha. */
  lemma HitRaisesAlpha(f: Flame, data: seq<Byte>, i: nat, x: real, y: real, finalColor: real, b: int)
    requires |data| == f.width * f.height * 4
    requires 0 <= b < |data| && b % 4 == 3
    ensures data[b] <= Hit(f, data, i, x, y, finalColor)[b]
    ensures Hit(f, data, i, x, y, finalColor)[b] == data[b] || Hit(f, data, i, x, y, finalColor)[b] == data[b] + 1
  {
    var px, py := PixelX(f, x), PixelY(f, y);
    if Plotted(f, i) && OnCanvas(f, px, py) {
      var o := Offset(f.width, px as real, py as real);
      assert o == (py * f.width + px) * 4;
      PixelInside(f.width, f.height, px, py);
      var pixel := GetPixel(data, f.width, px as real, py as real);
      assert pixel.Some? && pixel.value.a == data[o + 3];
      var c := Rgba(Clamp(GetColor(finalColor)), 0, 0, HitAlpha(pixel));
      SetPixelAlpha(data, f.width, px as real, py as real, c);
      if b != o + 3 {
        assert b != o && b != o + 1 && b != o + 2;
      }
    }
  }

  /** After a plot inside the canvas the pixel holds the red of the colour,
      green and blue 0, and one more alpha than before, capped at 255. */
  lemma HitIsRecorded(f: Flame, data: seq<Byte>, i: nat, x: real, y: real, finalColor: real)
    requires |data| == f.width * f.height * 4 && Plotted(f, i) && OnCanvas(f, PixelX(f, x), PixelY(f, y))
    ensures var px, py := PixelX(f, x) as real, PixelY(f, y) as real;
      var before := GetPixel(data, f.width, px, py);
      before.Some? &&
      GetPixel(Hit(f, data, i, x, y, finalColor), f.width, px, py) ==
        Some(Rgba(Clamp(GetColor(finalColor)), 0, 0, if before.value.a < 255 then before.value.a + 1 else 255))
  {
    var px, py := PixelX(f, x), PixelY(f, y);
    assert Offset(f.width, px as real, py as real) == (py * f.width + px) * 4;
    PixelInside(f.width, f.height, px, py);
    var c := Rgba(Clamp(GetColor(finalColor)), 0, 0, HitAlpha(GetPixel(data, f.width, px as real, py as real)));
    GetAfterSet(data, f.width, px as real, py as real, c);
  }

  class FractalFlame {
    var states: seq<Image>
    var iteration: nat
    var dirty: bool
    var x: real
    var y: real
    var color: real
    const table: seq<Entry>
    const variation: Variation
    const finalTransform: (real, real) -> Final
    const canvasWidth: nat
    const canvasHeight: nat
    const offsetX: int
    const offsetY: int

    ghost predicate Valid()
      reads this
    {
      iteration < |states| &&
      forall k :: 0 <= k < |states| ==>
        Sized(states[k]) && states[k].width == canvasWidth && states[k].height == canvasHeight
    }

    ghost function Hist(): Cursor.History<Image>
      reads this
    {
      Cursor.History(states, iteration)
    }

    /** The constructor and initialize: the point starts at the origin with
        the drawn colour `color0`, the offset is half the canvas, the final
        transform defaults to (x, y) => [x, y, 0], and the first state is a
        blank image. */
    constructor (canvasWidth: nat, canvasHeight: nat, table: seq<Entry>, variation: Variation,
                 finalTransform: Option<(real, real) -> Final>, color0: real)
      ensures Valid() && Hist() == Cursor.Start(Blank(canvasWidth, canvasHeight)) && !dirty
      ensures x == 0.0 && y == 0.0 && color == color0
      ensures offsetX == canvasWidth / 2 && offsetY == canvasHeight / 2
      ensures finalTransform.None? ==> forall a: real, b: real :: this.finalTransform(a, b) == Final(a, b, 0.0)
      ensures finalTransform.Some? ==> forall a: real, b: real :: this.finalTransform(a, b) == finalTransform.value(a, b)
      ensures this.table == table && this.canvasWidth == canvasWidth && this.canvasHeight == canvasHeight
      ensures forall k: nat, a: real, b: real :: this.variation(k, a, b) == variation(k, a, b)
    {
      this.table, this.variation := table, variation;
      this.canvasWidth, this.canvasHeight := canvasWidth, canvasHeight;
      offsetX, offsetY := canvasWidth / 2, canvasHeight / 2;
      if finalTransform.Some? {
        this.finalTransform := finalTransform.value;
      } else {
        this.finalTransform := (a: real, b: real) => Final(a, b, 0.0);
      }
      x, y, color := 0.0, 0.0, color0;
      states := [Blank(canvasWidth, canvasHeight)];
      iteration := 0;
      dirty := false;
    }

    function FlameFor(draws: seq<real>): Flame
      reads this
    {
      Flame(table, variation, finalTransform, canvasWidth, canvasHeight, offsetX, offsetY, iteration, draws)
    }

    /** nextIteration: `draws` are the Step values of Math.random that scale
        the total weight into k. */
    method NextIteration(draws: seq<real>)
      requires Valid() && |draws| == Step
      modifies this`states, this`iteration, this`dirty, this`x, this`y, this`color
      ensures Valid() && dirty
      ensures var prev := old(states[iteration]);
        var end := Run(old(FlameFor(draws)), Point(old(x), old(y), old(color), prev.data), Step);
        if Cursor.AtLast(old(Hist())) then
          Hist() == Cursor.Next(old(Hist()), Image(canvasWidth, canvasHeight, end.data)) &&
          x == end.x && y == end.y && color == end.color
        else
          Hist() == Cursor.Next(old(Hist()), prev) && x == old(x) && y == old(y) && color == old(color)
    {
      if iteration == |states| - 1 {
        var prevState := states[iteration];
        var newState := CopyBytes(prevState.data);
        PlotSteps(newState, draws);
        states := states + [Image(prevState.width, prevState.height, newState[..])];
      }
      iteration := iteration + 1;
      dirty := true;
    }

    /** The step loop of nextIteration. */
    method PlotSteps(newState: array<Byte>, draws: seq<real>)
      requires |draws| == Step
      modifies this`x, this`y, this`color, newState
      ensures var end := Run(FlameFor(draws), Point(old(x), old(y), old(color), old(newState[..])), Step);
        x == end.x && y == end.y && color == end.color && newState[..] == end.data
    {
      ghost var f := FlameFor(draws);
      ghost var start := Point(x, y, color, newState[..]);
      var i := 0;
      while i < Step
        invariant 0 <= i <= Step
        invariant Point(x, y, color, newState[..]) == Run(f, start, i)
      {
        PlotStep(newState, draws, i);
        i := i + 1;
      }
    }

    /** One pass of the step loop: the total weight, the draw k, and the
        selection walk over the table. */
    method PlotStep(newState: array<Byte>, draws: seq<real>, i: nat)
      requires i < |draws|
      modifies this`x, this`y, this`color, newState
      ensures Point(x, y, color, newState[..]) == StepAt(FlameFor(draws), Point(old(x), old(y), old(color), old(newState[..])), i)
    {
      ghost var f := FlameFor(draws);
      ghost var goal := StepAt(f, Point(x, y, color, newState[..]), i);
      ghost var drawn := Drawn(f.draws[i], Total(f));
      assert goal == Pick(f, Point(x, y, color, newState[..]), i, drawn, 0, 0.0);
      var sum := TotalWeight();
      var k := draws[i] * sum;
      assert k == drawn;
      sum := 0.0;
      var j := 0;
      while j < |table|
        invariant 0 <= j <= |table|
        invariant sum == WeightSum(Coeffs(table), j)
        invariant Pick(f, Point(x, y, color, newState[..]), i, k, j, sum) == goal
      {
        var prob := table[j].c.p;
        sum := sum + prob;
        if sum >= k || prob == 1.0 {
          var counter := ApplyEntry(newState, draws, i, j);
          k := counter as real;
          if prob != 1.0 {
            assert Point(x, y, color, newState[..]) == goal;
            break;
          }
        }
        j := j + 1;
      }
    }

    /** The first loop of a step: the sum of all weights. */
    method TotalWeight() returns (sum: real)
      ensures sum == WeightSum(Coeffs(table), |table|)
    {
      sum := 0.0;
      var j := 0;
      while j < |table|
        invariant 0 <= j <= |table|
        invariant sum == WeightSum(Coeffs(table), j)
      {
        sum := sum + table[j].c.p;
        j := j + 1;
      }
    }

    /** The body of the selection walk for an applied entry j: the affine map,
        the variations, the colour update, the final transform and the plot.
        `counter` is the final value of the variation loop's counter, which
        the code keeps in the selection variable k. */
    method ApplyEntry(newState: array<Byte>, draws: seq<real>, i: nat, j: nat) returns (counter: int)
      requires j < |table|
      modifies this`x, this`y, this`color, newState
      ensures counter == -1
      ensures Point(x, y, color, newState[..]) == Apply(FlameFor(draws), Point(old(x), old(y), old(color), old(newState[..])), i, j)
    {
      ghost var fl := FlameFor(draws);
      ghost var start := Point(x, y, color, newState[..]);
      var coeffs := table[j].c;
      var newx := coeffs.a * x + coeffs.b * y + coeffs.e;
      var newy := coeffs.c * x + coeffs.d * y + coeffs.f;
      var sumx, sumy;
      sumx, sumy, counter := Vary(table[j].vv, newx, newy);
      color := (color + table[j].colorWeight) / 2.0;
      var final := finalTransform(sumx, sumy);
      assert fl.V == variation && fl.final == finalTransform && fl.table == table;
      assert newx == AffineX(fl.table[j].c, start.x, start.y);
      assert newy == AffineY(fl.table[j].c, start.x, start.y);
      assert Move(fl, start, j) == Moved(final.x, final.y, color, (color + final.color) / 2.0);
      x, y := final.x, final.y;
      var finalColor := (color + final.color) / 2.0;
      PlotPoint(newState, draws, i, finalColor);
    }

    /** The plotting part of an applied entry, for the point already moved to
        (x, y): the burn-in test, the bounds guard, and the hit. */
    method PlotPoint(newState: array<Byte>, draws: seq<real>, i: nat, finalColor: real)
      modifies newState
      ensures newState[..] == Hit(FlameFor(draws), old(newState[..]), i, x, y, finalColor)
    {
      if iteration > 0 || i > 10 {
        var pixelX := (x * Zoom + offsetX as real).Floor;
        var pixelY := (y * Zoom + offsetY as real).Floor;
        if pixelX > 0 && pixelX < canvasWidth && pixelY > 0 && pixelY < canvasHeight {
          var pixel := GetPixel(newState[..], canvasWidth, pixelX as real, pixelY as real);
          var alpha: Byte := 0;
          if pixel.Some? {
            alpha := if pixel.value.a + 1 < 255 then pixel.value.a + 1 else 255;
          }
          var red := GetColor(finalColor);
          PutPixel(newState, canvasWidth, pixelX as real, pixelY as real, Rgba(Clamp(red), 0, 0, alpha));
        }
      }
    }

    /** The variation loop, from the last variation down to the first; its
        counter m ends at -1. */
    method Vary(vv: seq<real>, x: real, y: real) returns (sumx: real, sumy: real, m: int)
      ensures Vec(sumx, sumy) == VarSum(variation, vv, x, y, 0)
      ensures m == -1
    {
      sumx, sumy := 0.0, 0.0;
      m := |vv| - 1;
      while m >= 0
        invariant -1 <= m < |vv|
        invariant Vec(sumx, sumy) == VarSum(variation, vv, x, y, m + 1)
      {
        if vv[m] != 0.0 {
          ghost var acc := Vec(sumx, sumy);
          var varied := variation(m, x, y);
          sumx := sumx + varied.x * vv[m];
          sumy := sumy + varied.y * vv[m];
          assert Vec(sumx, sumy) == AddWeighted(acc, varied, vv[m]);
        }
        m := m - 1;
      }
    }

    method PrevIteration()
      requires Valid()
      modifies this`iteration, this`dirty
      ensures Valid()
      ensures Hist() == Cursor.Prev(old(Hist()))
      ensures dirty == (old(dirty) || old(iteration) > 0)
    {
      if iteration > 0 {
        iteration := iteration - 1;
        dirty := true;
      }
    }
  }
}
