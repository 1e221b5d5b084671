/** The deterministic IFS builder over figures: every figure of the previous
    state is mapped by every row of the table, offsets scaled by the canvas
    size and the extent scaled by the diagonal terms only; a counter records
    how many images drop below one pixel. */
module DeterministicIfs {
  import Cursor
  import opened Wrappers
  import opened IfsTable

  /** A figure instance: origin and extent (the shape kind only affects drawing). */
  datatype Figure = Figure(x: real, y: real, width: real, height: real)

  /** The image of a figure under one row on a canvas of width w and height h. */
  function Image(row: Row, fig: Figure, w: real, h: real): Figure
  {
    Figure(row.a * fig.x + row.b * fig.y + row.e * w,
           row.c * fig.x + row.d * fig.y + row.f * h,
           fig.width * row.a, fig.height * row.d)
  }

  /** The image is below one pixel in a dimension in which its figure was not. */
  predicate NewlySubpixel(fig: Figure, img: Figure)
  {
    (img.width < 1.0 && fig.width >= 1.0) || (img.height < 1.0 && fig.height >= 1.0)
  }

  /** The images of one figure under the first j rows, in row order. */
  function Images(fig: Figure, table: seq<Row>, w: real, h: real, j: nat): seq<Figure>
    requires j <= |table|
  {
    if j == 0 then [] else Images(fig, table, w, h, j - 1) + [Image(table[j - 1], fig, w, h)]
  }

  /** The new state built from the first i figures of the previous one. */
  function Expand(prev: seq<Figure>, table: seq<Row>, w: real, h: real, i: nat): seq<Figure>
    requires i <= |prev|
  {
    if i == 0 then [] else Expand(prev, table, w, h, i - 1) + Images(prev[i - 1], table, w, h, |table|)
  }

  function CountImages(fig: Figure, table: seq<Row>, w: real, h: real, j: nat): nat
    requires j <= |table|
  {
    if j == 0 then 0
    else CountImages(fig, table, w, h, j - 1) + (if NewlySubpixel(fig, Image(table[j - 1], fig, w, h)) then 1 else 0)
  }

  /** The sub-pixel counter after the first i figures. */
  function CountExpand(prev: seq<Figure>, table: seq<Row>, w: real, h: real, i: nat): nat
    requires i <= |prev|
  {
    if i == 0 then 0 else CountExpand(prev, table, w, h, i - 1) + CountImages(prev[i - 1], table, w, h, |table|)
  }

  lemma {:induction false} ImagesLayout(fig: Figure, table: seq<Row>, w: real, h: real, j: nat, k: nat)
    requires k < j <= |table|
    ensures |Images(fig, table, w, h, j)| == j
    ensures Images(fig, table, w, h, j)[k] == Image(table[k], fig, w, h)
    decreases j
  {
    ImagesLength(fig, table, w, h, j - 1);
    if k < j - 1 {
      ImagesLayout(fig, table, w, h, j - 1, k);
    }
  }

  lemma {:induction false} ImagesLength(fig: Figure, table: seq<Row>, w: real, h: real, j: nat)
    requires j <= |table|
    ensures |Images(fig, table, w, h, j)| == j
    decreases j
  {
    if j > 0 {
      ImagesLength(fig, table, w, h, j - 1);
    }
  }

  lemma {:induction false} ExpandLength(prev: seq<Figure>, table: seq<Row>, w: real, h: real, i: nat)
    requires i <= |prev|
    ensures |Expand(prev, table, w, h, i)| == i * |table|
    decreases i
  {
    if i > 0 {
      ExpandLength(prev, table, w, h, i - 1);
      ImagesLength(prev[i - 1], table, w, h, |table|);
      assert (i - 1) * |table| + |table| == i * |table|;
    }
  }

  /** Layout of a new state: |prev| * |table| figures, the image of figure i
      under row j at index i * |table| + j, with the offsets scaled by the
      canvas size and only a and d scaling the extent. */
  lemma {:induction false} ExpandLayout(prev: seq<Figure>, table: seq<Row>, w: real, h: real, n: nat, i: nat, j: nat)
    requires i < n <= |prev| && j < |table|
    ensures |Expand(prev, table, w, h, n)| == n * |table|
    ensures Expand(prev, table, w, h, n)[i * |table| + j] == Image(table[j], prev[i], w, h)
    decreases n
  {
    ExpandLength(prev, table, w, h, n);
    ExpandLength(prev, table, w, h, n - 1);
    var before := Expand(prev, table, w, h, n - 1);
    var last := Images(prev[n - 1], table, w, h, |table|);
    assert Expand(prev, table, w, h, n) == before + last;
    var idx := i * |table| + j;
    if i < n - 1 {
      ExpandLayout(prev, table, w, h, n - 1, i, j);
      RowIndexBound(i, n - 1, |table|, j);
      assert 0 <= idx < |before|;
    } else {
      ImagesLayout(prev[i], table, w, h, |table|, j);
      assert idx == |before| + j;
      assert (before + last)[idx] == last[j];
    }
  }

  lemma RowIndexBound(i: nat, n: nat, t: nat, j: nat)
    requires i < n && j < t
    ensures 0 <= i * t + j < n * t
  {
    assert (i + 1) * t <= n * t;
  }

  /** Each (figure, row) pair is counted at most once. */
  lemma {:induction false} CountBound(prev: seq<Figure>, table: seq<Row>, w: real, h: real, n: nat)
    requires n <= |prev|
    ensures CountExpand(prev, table, w, h, n) <= n * |table|
    decreases n
  {
    if n > 0 {
      CountBound(prev, table, w, h, n - 1);
      CountImagesBound(prev[n - 1], table, w, h, |table|);
      assert (n - 1) * |table| + |table| == n * |table|;
    }
  }

  lemma {:induction false} CountImagesBound(fig: Figure, table: seq<Row>, w: real, h: real, j: nat)
    requires j <= |table|
    ensures CountImages(fig, table, w, h, j) <= j
    decreases j
  {
    if j > 0 {
      CountImagesBound(fig, table, w, h, j - 1);
    }
  }

  /** Only a figure that is at least one pixel in some dimension can produce a
      counted image: a state of sub-pixel figures adds nothing to the counter. */
  lemma {:induction false} CountSubpixelState(prev: seq<Figure>, table: seq<Row>, w: real, h: real, n: nat)
    requires n <= |prev|
    requires forall k :: 0 <= k < |prev| ==> prev[k].width < 1.0 && prev[k].height < 1.0
    ensures CountExpand(prev, table, w, h, n) == 0
    decreases n
  {
    if n > 0 {
      CountSubpixelState(prev, table, w, h, n - 1);
      CountImagesNone(prev[n - 1], table, w, h, |table|);
    }
  }

  lemma {:induction false} CountImagesNone(fig: Figure, table: seq<Row>, w: real, h: real, j: nat)
    requires j <= |table| && fig.width < 1.0 && fig.height < 1.0
    ensures CountImages(fig, table, w, h, j) == 0
    decreases j
  {
    if j > 0 {
      CountImagesNone(fig, table, w, h, j - 1);
    }
  }

  /** The draw-skip test: a figure below one pixel in either dimension. */
  predicate Skipped(fig: Figure)
  {
    fig.width < 1.0 || fig.height < 1.0
  }

  /** The figures the draw pass renders, in order; the others stay in the state. */
  function Visible(state: seq<Figure>): (r: seq<Figure>)
    ensures |r| <= |state|
    ensures forall f :: f in r <==> f in state && !Skipped(f)
  {
    if state == [] then []
    else (if Skipped(state[0]) then [] else [state[0]]) + Visible(state[1..])
  }

  class DeterministicIfs {
    var states: seq<seq<Figure>>
    var iteration: nat
    var dirty: bool
    /** Undefined until the first computed iteration. */
    var subpixelElements: Option<nat>
    const width: real
    const height: real
    const table: seq<Row>

    ghost predicate Valid()
      reads this
    {
      iteration < |states|
    }

    ghost function Hist(): Cursor.History<seq<Figure>>
      reads this
    {
      Cursor.History(states, iteration)
    }

    /** initialize: the first state is one figure covering the canvas. */
    constructor (width: real, height: real, table: seq<Row>)
      ensures Valid() && Hist() == Cursor.Start([Figure(0.0, 0.0, width, height)])
      ensures !dirty && subpixelElements.None?
      ensures this.width == width && this.height == height && this.table == table
    {
      this.width, this.height, this.table := width, height, table;
      states := [[Figure(0.0, 0.0, width, height)]];
      iteration := 0;
      dirty := false;
      subpixelElements := None;
    }

    /** nextIteration: at the last entry every figure is mapped by every row and
        the counter is replaced; a replay only moves the cursor. */
    method NextIteration()
      requires Valid()
      modifies this`states, this`iteration, this`dirty, this`subpixelElements
      ensures Valid() && dirty
      ensures var prev := old(states[iteration]);
        Hist() == Cursor.Next(old(Hist()), Expand(prev, table, width, height, |prev|))
      ensures subpixelElements ==
        if Cursor.AtLast(old(Hist())) then Some(CountExpand(old(states[iteration]), table, width, height, |old(states[iteration])|))
        else old(subpixelElements)
    {
      if iteration == |states| - 1 {
        var newState, count := ExpandState(states[iteration]);
        subpixelElements := Some(count);
        states := states + [newState];
      }
      iteration := iteration + 1;
      dirty := true;
    }

    /** The figure loop of nextIteration: every figure of the previous state
        mapped by every row, and the number of images newly below one pixel. */
    method ExpandState(prevState: seq<Figure>) returns (newState: seq<Figure>, count: nat)
      ensures newState == Expand(prevState, table, width, height, |prevState|)
      ensures count == CountExpand(prevState, table, width, height, |prevState|)
    {
      newState, count := [], 0;
      var i := 0;
      while i < |prevState|
        invariant 0 <= i <= |prevState|
        invariant newState == Expand(prevState, table, width, height, i)
        invariant count == CountExpand(prevState, table, width, height, i)
      {
        var images, found := MapFigure(prevState[i]);
        count := count + found;
        newState := newState + images;
        assert Expand(prevState, table, width, height, i + 1) == newState;
        assert CountExpand(prevState, table, width, height, i + 1) == count;
        i := i + 1;
      }
    }

    /** The row loop of nextIteration for one figure: its images under every
        row, in row order, and how many of them are newly below one pixel. */
    method MapFigure(element: Figure) returns (images: seq<Figure>, count: nat)
      ensures images == Images(element, table, width, height, |table|)
      ensures count == CountImages(element, table, width, height, |table|)
    {
      images, count := [], 0;
      var j := 0;
      while j < |table|
        invariant 0 <= j <= |table|
        invariant images == Images(element, table, width, height, j)
        invariant count == CountImages(element, table, width, height, j)
      {
        var row := table[j];
        var e := row.e * width;
        var f := row.f * height;
        var newWidth := element.width * row.a;
        var newHeight := element.height * row.d;
        if (newWidth < 1.0 && element.width >= 1.0) || (newHeight < 1.0 && element.height >= 1.0) {
          count := count + 1;
        }
        var fig := Figure(row.a * element.x + row.b * element.y + e,
                          row.c * element.x + row.d * element.y + f, newWidth, newHeight);
        assert fig == Image(row, element, width, height);
        images := images + [fig];
        j := j + 1;
      }
    }

    method PrevIteration()
      requires Valid()
      modifies this`iteration, this`dirty
      ensures Valid()
      ensures Hist() == Cursor.Prev(old(Hist()))
      ensures dirty == (old(dirty) || old(iteration) > 0)
    {
      if iteration > 0 {
        iteration := iteration - 1;
        dirty := true;
      }
    }
  }
}
