/** The randomized IFS builder: each step draws k, applies the first row of the
    table whose running sum of weights reaches k to the current point, and plots
    the new point (shifted by the table's offset) into a copy of the current
    image. The first 11 steps of the very first iteration are not plotted. */
module RandomizedIfs {
  import Cursor
  import opened Wrappers
  import opened Raster
  import opened IfsTable

  /** Steps per computed iteration. */
  const Step: nat := 10000
  /** On iteration 0, the steps i = 0 .. BurnIn move the point without plotting. */
  const BurnIn: nat := 10

  /** The first of the first n rows whose prefix sum of weights reaches k. */
  function SelectIn(table: seq<Row>, k: real, n: nat): (r: Option<nat>)
    requires n <= |table|
    ensures r.Some? ==> r.value < n && k <= WeightSum(table, r.value + 1)
    ensures r.Some? ==> forall j :: 1 <= j <= r.value ==> WeightSum(table, j) < k
    ensures r.None? <==> forall j :: 1 <= j <= n ==> WeightSum(table, j) < k
  {
    if n == 0 then None
    else
      var r := SelectIn(table, k, n - 1);
      if r.Some? then r else if WeightSum(table, n) >= k then Some(n - 1) else None
  }

  /** The row a draw k selects; None when no prefix sum reaches k. */
  function Select(table: seq<Row>, k: real): (r: Option<nat>)
    ensures r.Some? ==> r.value < |table|
  {
    SelectIn(table, k, |table|)
  }

  /** Once a row is selected among the first m rows, more rows do not change it. */
  lemma {:induction false} SelectInStable(table: seq<Row>, k: real, m: nat, n: nat)
    requires m <= n <= |table| && SelectIn(table, k, m).Some?
    ensures SelectIn(table, k, n) == SelectIn(table, k, m)
    decreases n
  {
    if n > m {
      SelectInStable(table, k, m, n - 1);
    }
  }

  /** When the weights add up to at least 1, every draw in [0, 1) selects a row. */
  lemma WeightsCoverDraws(table: seq<Row>, k: real)
    requires 1.0 <= WeightSum(table, |table|) && k < 1.0 && |table| > 0
    ensures Select(table, k).Some?
  {
    assert WeightSum(table, (|table| - 1) + 1) >= k;
  }

  /** The colour of a heatmap plot, from the previous image's pixel at the same
      place (None where that pixel lies outside the image). */
  function HeatColour(orig: Option<Rgba>): Rgba
  {
    var lit := orig.Some? && orig.value.a == 255;
    Rgba(if lit then Clamp(orig.value.r + 5) else 0,
         if lit && orig.value.r == 255 then Clamp(orig.value.g + 5) else 0,
         if lit then 255 - orig.value.r else 255,
         255)
  }

  /** The red channel of a colour-choice plot for row j of t rows: 255 / t * j
      stored into a clamped byte. */
  function ChoiceRed(t: nat, j: nat): (red: Byte)
    requires j < t
    ensures -0.5 <= red as real - 255.0 / t as real * j as real <= 0.5
    ensures j == 0 ==> red == 0
  {
    var v := 255.0 / t as real * j as real;
    assert 0.0 <= v < 255.0 by {
      assert v == 255.0 * (j as real / t as real);
      assert j as real / t as real < 1.0;
    }
    ToByte(v)
  }

  /** The three colour modes; the heatmap wins over colour choice. */
  datatype Mode = Mode(heatmap: bool, colorChoice: bool)

  function Colour(mode: Mode, prev: Image, t: nat, j: nat, px: real, py: real): (c: Rgba)
    requires j < t
    ensures c.a == 255
    ensures !mode.heatmap && !mode.colorChoice ==> c == Rgba(0, 0, 0, 255)
    ensures !mode.heatmap && mode.colorChoice ==> c == Rgba(ChoiceRed(t, j), 0, 0, 255)
  {
    if mode.heatmap then HeatColour(GetPixel(prev.data, prev.width, px, py))
    else if mode.colorChoice then Rgba(ChoiceRed(t, j), 0, 0, 255)
    else Rgba(0, 0, 0, 255)
  }

  /** The heatmap only reads the previous image: the colour of a plot does not
      depend on what the iteration has plotted so far. */
  lemma HeatmapReadsPrevious(mode: Mode, prev: Image, t: nat, j: nat, px: real, py: real)
    requires j < t && mode.heatmap
    ensures var c := Colour(mode, prev, t, j, px, py);
      var o := GetPixel(prev.data, prev.width, px, py);
      (o.Some? && o.value.a == 255 ==>
        c.r == Clamp(o.value.r + 5) && c.b == 255 - o.value.r &&
        c.g == (if o.value.r == 255 then Clamp(o.value.g + 5) else 0)) &&
      (!(o.Some? && o.value.a == 255) ==> c == Rgba(0, 0, 255, 255))
  {
  }

  /** The moving point and the buffer being plotted into. */
  datatype Walker = Walker(x: real, y: real, data: seq<Byte>)

  /** Everything a computed iteration depends on besides the starting walker. */
  datatype Chain = Chain(table: seq<Row>, prev: Image, offsetX: real, offsetY: real, mode: Mode,
                         iteration: nat, draws: seq<real>)

  predicate Plotted(c: Chain, i: nat)
  {
    c.iteration > 0 || i > BurnIn
  }

  /** Step i with row j selected: the affine map of row j, and a plot at the
      shifted point after the burn-in. */
  function Land(c: Chain, w: Walker, i: nat, j: nat): (w': Walker)
    requires j < |c.table|
    ensures |w'.data| == |w.data|
  {
    var row := c.table[j];
    var nx, ny := row.a * w.x + row.b * w.y + row.e, row.c * w.x + row.d * w.y + row.f;
    if Plotted(c, i) then
      var px, py := nx + c.offsetX, ny + c.offsetY;
      Walker(nx, ny, SetPixel(w.data, c.prev.width, px, py, Colour(c.mode, c.prev, |c.table|, j, px, py)))
    else Walker(nx, ny, w.data)
  }

  /** Step i: nothing when the draw selects no row, otherwise a landing by the
      selected row. */
  function StepAt(c: Chain, w: Walker, i: nat): (w': Walker)
    requires i < |c.draws|
    ensures |w'.data| == |w.data|
  {
    match Select(c.table, c.draws[i])
    case None => w
    case Some(j) => Land(c, w, i, j)
  }

  /** The walker after the first n steps. */
  function Walk(c: Chain, start: Walker, n: nat): (w: Walker)
    requires n <= |c.draws|
    ensures |w.data| == |start.data|
  {
    if n == 0 then start else StepAt(c, Walk(c, start, n - 1), n - 1)
  }

  /** A draw that no prefix sum reaches leaves the point and the image as they were. */
  lemma UnselectedStepIsNoop(c: Chain, w: Walker, i: nat)
    requires i < |c.draws| && WeightSum(c.table, |c.table|) < c.draws[i]
    requires forall j :: 0 <= j < |c.table| ==> 0.0 <= c.table[j].p
    ensures StepAt(c, w, i) == w
  {
    forall j | 1 <= j <= |c.table|
      ensures WeightSum(c.table, j) < c.draws[i]
    {
      WeightSumMonotone(c.table, j, |c.table|);
    }
  }

  /** With non-negative weights the prefix sums never decrease. */
  lemma {:induction false} WeightSumMonotone(table: seq<Row>, m: nat, n: nat)
    requires m <= n <= |table|
    requires forall j :: 0 <= j < |table| ==> 0.0 <= table[j].p
    ensures WeightSum(table, m) <= WeightSum(table, n)
    decreases n
  {
    if n > m {
      WeightSumMonotone(table, m, n - 1);
    }
  }

  /** Burn-in: on iteration 0 the first BurnIn + 1 steps leave the image as it was. */
  lemma {:induction false} BurnInPlotsNothing(c: Chain, start: Walker, n: nat)
    requires n <= |c.draws| && c.iteration == 0 && n <= BurnIn + 1
    ensures Walk(c, start, n).data == start.data
  {
    if n > 0 {
      BurnInPlotsNothing(c, start, n - 1);
    }
  }

  /** A pixel already set (alpha 255) stays set: images only accumulate. */
  lemma {:induction false} WalkKeepsSet(c: Chain, start: Walker, n: nat, j: int)
    requires n <= |c.draws|
    requires 0 <= j < |start.data| && j % 4 == 3 && start.data[j] == 255
    ensures Walk(c, start, n).data[j] == 255
  {
    if n > 0 {
      WalkKeepsSet(c, start, n - 1, j);
      var w := Walk(c, start, n - 1);
      match Select(c.table, c.draws[n - 1])
      case None =>
      case Some(r) => LandKeepsSet(c, w, n - 1, r, j);
    }
  }

  lemma LandKeepsSet(c: Chain, w: Walker, i: nat, r: nat, j: int)
    requires r < |c.table|
    requires 0 <= j < |w.data| && j % 4 == 3 && w.data[j] == 255
    ensures Land(c, w, i, r).data[j] == 255
  {
    var row := c.table[r];
    var nx, ny := row.a * w.x + row.b * w.y + row.e, row.c * w.x + row.d * w.y + row.f;
    if Plotted(c, i) {
      var px, py := nx + c.offsetX, ny + c.offsetY;
      SetPixelKeepsSet(w.data, c.prev.width, px, py, Colour(c.mode, c.prev, |c.table|, r, px, py), j);
    }
  }

  /** After a plotted step the pixel under the shifted point has alpha 255. */
  lemma LandingIsSet(c: Chain, start: Walker, n: nat)
    requires 0 < n <= |c.draws| && Plotted(c, n - 1) && Select(c.table, c.draws[n - 1]).Some?
    requires var w := Walk(c, start, n); var o := Offset(c.prev.width, w.x + c.offsetX, w.y + c.offsetY);
      0 <= o && o + 4 <= |start.data|
    ensures var w := Walk(c, start, n);
      GetPixel(w.data, c.prev.width, w.x + c.offsetX, w.y + c.offsetY).Some? &&
      GetPixel(w.data, c.prev.width, w.x + c.offsetX, w.y + c.offsetY).value.a == 255
  {
    var before := Walk(c, start, n - 1);
    var w := Walk(c, start, n);
    var j := Select(c.table, c.draws[n - 1]).value;
    var px, py := w.x + c.offsetX, w.y + c.offsetY;
    GetAfterSet(before.data, c.prev.width, px, py, Colour(c.mode, c.prev, |c.table|, j, px, py));
  }

  class RandomizedIfs {
    var states: seq<Image>
    var iteration: nat
    var dirty: bool
    var x: real
    var y: real
    const table: seq<Row>
    const heatmap: bool
    const colorChoice: bool
    const offsetX: real
    const offsetY: real
    const canvasWidth: nat
    const canvasHeight: nat

    ghost predicate Valid()
      reads this
    {
      iteration < |states| &&
      forall k :: 0 <= k < |states| ==>
        Sized(states[k]) && states[k].width == canvasWidth && states[k].height == canvasHeight
    }

    ghost function Hist(): Cursor.History<Image>
      reads this
    {
      Cursor.History(states, iteration)
    }

    /** The constructor and initialize: the point starts at the origin, the
        offset defaults to (0, 0), and the first state is a blank image. */
    constructor (canvasWidth: nat, canvasHeight: nat, table: seq<Row>, offset: Option<(real, real)>,
                 heatmap: bool, colorChoice: bool)
      ensures Valid() && Hist() == Cursor.Start(Blank(canvasWidth, canvasHeight)) && !dirty
      ensures x == 0.0 && y == 0.0
      ensures offset.None? ==> offsetX == 0.0 && offsetY == 0.0
      ensures offset.Some? ==> offsetX == offset.value.0 && offsetY == offset.value.1
      ensures this.table == table && this.heatmap == heatmap && this.colorChoice == colorChoice
      ensures this.canvasWidth == canvasWidth && this.canvasHeight == canvasHeight
    {
      this.table, this.heatmap, this.colorChoice := table, heatmap, colorChoice;
      this.canvasWidth, this.canvasHeight := canvasWidth, canvasHeight;
      x, y := 0.0, 0.0;
      if offset.Some? {
        offsetX, offsetY := offset.value.0, offset.value.1;
      } else {
        offsetX, offsetY := 0.0, 0.0;
      }
      states := [Blank(canvasWidth, canvasHeight)];
      iteration := 0;
      dirty := false;
    }

    function ChainFor(prev: Image, draws: seq<real>): Chain
      reads this
    {
      Chain(table, prev, offsetX, offsetY, Mode(heatmap, colorChoice), iteration, draws)
    }

    /** nextIteration: `draws` are the Step values of k. */
    method NextIteration(draws: seq<real>)
      requires Valid() && |draws| == Step
      modifies this`states, this`iteration, this`dirty, this`x, this`y
      ensures Valid() && dirty
      ensures var prev := old(states[iteration]);
        var end := Walk(old(ChainFor(prev, draws)), Walker(old(x), old(y), prev.data), Step);
        if Cursor.AtLast(old(Hist())) then
          Hist() == Cursor.Next(old(Hist()), Image(prev.width, prev.height, end.data)) && x == end.x && y == end.y
        else
          Hist() == Cursor.Next(old(Hist()), prev) && x == old(x) && y == old(y)
    {
      if iteration == |states| - 1 {
        var prevState := states[iteration];
        var newState := CopyBytes(prevState.data);
        PlotSteps(newState, prevState, draws);
        states := states + [Image(prevState.width, prevState.height, newState[..])];
      }
      iteration := iteration + 1;
      dirty := true;
    }

    /** The step loop of nextIteration, selection loop included. */
    method PlotSteps(newState: array<Byte>, prevState: Image, draws: seq<real>)
      requires |draws| == Step
      modifies this`x, this`y, newState
      ensures var end := Walk(ChainFor(prevState, draws), Walker(old(x), old(y), old(newState[..])), Step);
        x == end.x && y == end.y && newState[..] == end.data
    {
      ghost var c := ChainFor(prevState, draws);
      ghost var start := Walker(x, y, newState[..]);
      var i := 0;
      while i < Step
        invariant 0 <= i <= Step
        invariant Walker(x, y, newState[..]) == Walk(c, start, i)
      {
        ApplyDraw(newState, prevState, draws, i);
        i := i + 1;
      }
    }

    /** One pass of the step loop: select a row for the draw k = draws[i], move
        the point and plot it. */
    method ApplyDraw(newState: array<Byte>, prevState: Image, draws: seq<real>, i: nat)
      requires i < |draws|
      modifies this`x, this`y, newState
      ensures Walker(x, y, newState[..]) == StepAt(ChainFor(prevState, draws), Walker(old(x), old(y), old(newState[..])), i)
    {
      ghost var c := ChainFor(prevState, draws);
      ghost var before := Walker(x, y, newState[..]);
      var k := draws[i];
      var sum := 0.0;
      var j := 0;
      while j < |table|
        invariant 0 <= j <= |table|
        invariant sum == WeightSum(table, j)
        invariant SelectIn(table, k, j).None?
        invariant Walker(x, y, newState[..]) == before
      {
        sum := sum + table[j].p;
        if sum >= k {
          assert SelectIn(table, k, j + 1) == Some(j);
          SelectInStable(table, k, j + 1, |table|);
          PlotRow(newState, prevState, draws, i, j);
          return;
        }
        j := j + 1;
      }
    }

    /** The body of the selection loop once row j is chosen: move the point by
        row j and, after the burn-in, plot it in the colour the mode gives. */
    method PlotRow(newState: array<Byte>, prevState: Image, draws: seq<real>, i: nat, j: nat)
      requires j < |table|
      modifies this`x, this`y, newState
      ensures Walker(x, y, newState[..]) == Land(ChainFor(prevState, draws), Walker(old(x), old(y), old(newState[..])), i, j)
    {
      ghost var target := Land(ChainFor(prevState, draws), Walker(x, y, newState[..]), i, j);
      var row := table[j];
      var newx := row.a * x + row.b * y + row.e;
      var newy := row.c * x + row.d * y + row.f;
      x, y := newx, newy;
      if iteration > 0 || i > 10 {
        var red, green, blue := 0, 0, 0;
        if heatmap {
          var originalColor := GetPixel(prevState.data, prevState.width, x + offsetX, y + offsetY);
          var heat := HeatColour(originalColor);
          red, green, blue := heat.r, heat.g, heat.b;
        } else if colorChoice {
          red := ChoiceRed(|table|, j);
        }
        PutPixel(newState, prevState.width, x + offsetX, y + offsetY, Rgba(red, green, blue, 255));
      }
      assert Walker(x, y, newState[..]) == target;
    }

    method PrevIteration()
      requires Valid()
      modifies this`iteration, this`dirty
      ensures Valid()
      ensures Hist() == Cursor.Prev(old(Hist()))
      ensures dirty == (old(dirty) || old(iteration) > 0)
    {
      if iteration > 0 {
        iteration := iteration - 1;
        dirty := true;
      }
    }
  }
}
