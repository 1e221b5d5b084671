/** The deterministic IFS builder over pixels: every set pixel (alpha 255) of
    the previous image is copied, by every row of the table, into a new
    transparent image. Columns are visited from the right, each column from the
    bottom, and the rows of the table from the last, so when two writes land on
    the same pixel the one made later in that order wins. */
module DeterministicIfsPixels {
  import Cursor
  import opened Wrappers
  import opened Raster
  import opened IfsTable

  /** The colour modes: `demoColor` paints transform i in channel i % 3, and
      `heatmap` (which wins over it) brightens the red channel by 10. */
  datatype Mode = Mode(demoColor: bool, heatmap: bool)

  /** Everything one computed iteration depends on: the previous image, the
      table, the canvas size that scales e and f, and the colour mode. */
  datatype Job = Job(prev: Image, table: seq<Row>, canvasWidth: nat, canvasHeight: nat, mode: Mode)

  /** The colour written for transform i of a source pixel of colour orig;
      the alpha written is always 255. */
  function Paint(orig: Rgba, i: nat, mode: Mode): (c: Rgba)
    ensures c.a == 255
    ensures !mode.heatmap && !mode.demoColor ==> c.r == orig.r && c.g == orig.g && c.b == orig.b
    ensures !mode.heatmap && mode.demoColor ==>
      [c.r, c.g, c.b][i % 3] == 255 && forall ch :: 0 <= ch < 3 && ch != i % 3 ==> [c.r, c.g, c.b][ch] == 0
    ensures mode.heatmap ==> orig.r <= c.r <= orig.r + 10 && (c.r == orig.r + 10 || c.r == 255)
                             && c.g == orig.g && c.b == orig.b
  {
    if !mode.heatmap then
      if !mode.demoColor then Rgba(orig.r, orig.g, orig.b, 255)
      else Rgba(if i % 3 == 0 then 255 else 0, if i % 3 == 1 then 255 else 0, if i % 3 == 2 then 255 else 0, 255)
    else Rgba(Clamp(orig.r + 10), orig.g, orig.b, 255)
  }

  /** Where row `row` sends the pixel (x, y); the coordinates are floored on write. */
  function TargetX(job: Job, row: Row, x: int, y: int): real
  {
    row.a * x as real + row.b * y as real + row.e * job.canvasWidth as real
  }

  function TargetY(job: Job, row: Row, x: int, y: int): real
  {
    row.c * x as real + row.d * y as real + row.f * job.canvasHeight as real
  }

  /** The rows k-1 down to 0 of the table applied to the source pixel (x, y). */
  function Transforms(job: Job, buf: seq<Byte>, x: int, y: int, orig: Rgba, k: nat): (r: seq<Byte>)
    requires k <= |job.table|
    ensures |r| == |buf|
    decreases k
  {
    if k == 0 then buf
    else
      var row := job.table[k - 1];
      Transforms(job, SetPixel(buf, job.prev.width, TargetX(job, row, x, y), TargetY(job, row, x, y), Paint(orig, k - 1, job.mode)),
                 x, y, orig, k - 1)
  }

  /** One source pixel: copied by every row when it is set, skipped otherwise. */
  function Visit(job: Job, buf: seq<Byte>, x: int, y: int): (r: seq<Byte>)
    ensures |r| == |buf|
  {
    if IsSet(job.prev.data, job.prev.width, x, y) then
      Transforms(job, buf, x, y, GetPixel(job.prev.data, job.prev.width, x as real, y as real).value, |job.table|)
    else buf
  }

  /** The pixels (x, k-1) down to (x, 0) of one column. */
  function Column(job: Job, buf: seq<Byte>, x: int, k: nat): (r: seq<Byte>)
    ensures |r| == |buf|
    decreases k
  {
    if k == 0 then buf else Column(job, Visit(job, buf, x, k - 1), x, k - 1)
  }

  /** The columns k-1 down to 0. */
  function Pass(job: Job, buf: seq<Byte>, k: nat): (r: seq<Byte>)
    ensures |r| == |buf|
    decreases k
  {
    if k == 0 then buf else Pass(job, Column(job, buf, k - 1, job.prev.height), k - 1)
  }

  /** The image a computed iteration produces from `job.prev`. */
  function NextImage(job: Job): (img: Image)
    ensures img.width == job.prev.width && img.height == job.prev.height
    ensures Sized(img)
  {
    var blank := Blank(job.prev.width, job.prev.height);
    Image(blank.width, blank.height, Pass(job, blank.data, job.prev.width))
  }

  /** The pixel whose alpha is byte j is either set (alpha 255) or
      transparent black. */
  predicate PixelClean(data: seq<Byte>, j: int)
    requires 3 <= j < |data|
  {
    data[j] == 255 || (data[j - 3] == 0 && data[j - 2] == 0 && data[j - 1] == 0 && data[j] == 0)
  }

  /** Every pixel is either set (alpha 255) or transparent black. */
  ghost predicate Clean(data: seq<Byte>)
  {
    forall j :: 0 <= j < |data| && j % 4 == 3 ==> PixelClean(data, j)
  }

  lemma SetPixelClean(data: seq<Byte>, width: int, x: real, y: real, c: Rgba)
    requires |data| % 4 == 0 && Clean(data) && c.a == 255
    ensures Clean(SetPixel(data, width, x, y, c))
  {
    var o := Offset(width, x, y);
    var r := SetPixel(data, width, x, y, c);
    assert o % 4 == 0;
    forall j | 0 <= j < |r| && j % 4 == 3
      ensures PixelClean(r, j)
    {
      assert PixelClean(data, j);
      if j != o + 3 {
        var q, p := j / 4, o / 4;
        assert j == 4 * q + 3 && o == 4 * p;
        assert q < p || q > p;
        assert j < o || j - 3 > o + 3;
        assert r[j - 3] == data[j - 3] && r[j - 2] == data[j - 2] && r[j - 1] == data[j - 1] && r[j] == data[j];
      }
    }
  }

  lemma {:induction false} TransformsClean(job: Job, buf: seq<Byte>, x: int, y: int, orig: Rgba, k: nat)
    requires k <= |job.table| && |buf| % 4 == 0 && Clean(buf)
    ensures Clean(Transforms(job, buf, x, y, orig, k))
    decreases k
  {
    if k > 0 {
      var row := job.table[k - 1];
      SetPixelClean(buf, job.prev.width, TargetX(job, row, x, y), TargetY(job, row, x, y), Paint(orig, k - 1, job.mode));
      TransformsClean(job, SetPixel(buf, job.prev.width, TargetX(job, row, x, y), TargetY(job, row, x, y), Paint(orig, k - 1, job.mode)),
                      x, y, orig, k - 1);
    }
  }

  lemma {:induction false} ColumnClean(job: Job, buf: seq<Byte>, x: int, k: nat)
    requires |buf| % 4 == 0 && Clean(buf)
    ensures Clean(Column(job, buf, x, k))
    decreases k
  {
    if k > 0 {
      var next := Visit(job, buf, x, k - 1);
      VisitClean(job, buf, x, k - 1);
      ColumnClean(job, next, x, k - 1);
    }
  }

  lemma VisitClean(job: Job, buf: seq<Byte>, x: int, y: int)
    requires |buf| % 4 == 0 && Clean(buf)
    ensures Clean(Visit(job, buf, x, y))
  {
    if IsSet(job.prev.data, job.prev.width, x, y) {
      TransformsClean(job, buf, x, y, GetPixel(job.prev.data, job.prev.width, x as real, y as real).value, |job.table|);
    }
  }

  lemma {:induction false} PassClean(job: Job, buf: seq<Byte>, k: nat)
    requires |buf| % 4 == 0 && Clean(buf)
    ensures Clean(Pass(job, buf, k))
    decreases k
  {
    if k > 0 {
      ColumnClean(job, buf, k - 1, job.prev.height);
      PassClean(job, Column(job, buf, k - 1, job.prev.height), k - 1);
    }
  }

  /** Every pixel of a computed image is either set or transparent black, so
      the set test of the following iteration sees exactly the written pixels. */
  lemma NextImageClean(job: Job)
    ensures Clean(NextImage(job).data)
  {
    var blank := Blank(job.prev.width, job.prev.height);
    assert |blank.data| % 4 == 0;
    PassClean(job, blank.data, job.prev.width);
  }

  lemma {:induction false} TransformsKeepSet(job: Job, buf: seq<Byte>, x: int, y: int, orig: Rgba, k: nat, j: int)
    requires k <= |job.table| && 0 <= j < |buf| && j % 4 == 3 && buf[j] == 255
    ensures Transforms(job, buf, x, y, orig, k)[j] == 255
    decreases k
  {
    if k > 0 {
      var row := job.table[k - 1];
      var c := Paint(orig, k - 1, job.mode);
      SetPixelKeepsSet(buf, job.prev.width, TargetX(job, row, x, y), TargetY(job, row, x, y), c, j);
      TransformsKeepSet(job, SetPixel(buf, job.prev.width, TargetX(job, row, x, y), TargetY(job, row, x, y), c), x, y, orig, k - 1, j);
    }
  }

  lemma {:induction false} ColumnKeepSet(job: Job, buf: seq<Byte>, x: int, k: nat, j: int)
    requires 0 <= j < |buf| && j % 4 == 3 && buf[j] == 255
    ensures Column(job, buf, x, k)[j] == 255
    decreases k
  {
    if k > 0 {
      var y := k - 1;
      if IsSet(job.prev.data, job.prev.width, x, y) {
        TransformsKeepSet(job, buf, x, y, GetPixel(job.prev.data, job.prev.width, x as real, y as real).value, |job.table|, j);
      }
      ColumnKeepSet(job, Visit(job, buf, x, y), x, y, j);
    }
  }

  lemma {:induction false} PassKeepSet(job: Job, buf: seq<Byte>, k: nat, j: int)
    requires 0 <= j < |buf| && j % 4 == 3 && buf[j] == 255
    ensures Pass(job, buf, k)[j] == 255
    decreases k
  {
    if k > 0 {
      ColumnKeepSet(job, buf, k - 1, job.prev.height, j);
      PassKeepSet(job, Column(job, buf, k - 1, job.prev.height), k - 1, j);
    }
  }

  /** The alpha byte of the pixel row i sends (x, y) to, when it lies in the buffer. */
  function TargetAlpha(job: Job, i: nat, x: int, y: int): (t: int)
    requires i < |job.table|
    ensures t % 4 == 3
  {
    Offset(job.prev.width, TargetX(job, job.table[i], x, y), TargetY(job, job.table[i], x, y)) + 3
  }

  lemma {:induction false} TransformsReach(job: Job, buf: seq<Byte>, x: int, y: int, orig: Rgba, k: nat, i: nat)
    requires i < k <= |job.table|
    requires 0 <= TargetAlpha(job, i, x, y) < |buf|
    ensures Transforms(job, buf, x, y, orig, k)[TargetAlpha(job, i, x, y)] == 255
    decreases k
  {
    var row := job.table[k - 1];
    var c := Paint(orig, k - 1, job.mode);
    var next := SetPixel(buf, job.prev.width, TargetX(job, row, x, y), TargetY(job, row, x, y), c);
    assert Transforms(job, buf, x, y, orig, k) == Transforms(job, next, x, y, orig, k - 1);
    var t := TargetAlpha(job, i, x, y);
    if i == k - 1 {
      SetPixelAlpha(buf, job.prev.width, TargetX(job, row, x, y), TargetY(job, row, x, y), c);
      TransformsKeepSet(job, next, x, y, orig, k - 1, t);
    } else {
      TransformsReach(job, next, x, y, orig, k - 1, i);
    }
  }

  lemma {:induction false} ColumnReach(job: Job, buf: seq<Byte>, x: int, k: nat, y: nat, i: nat)
    requires y < k && i < |job.table| && IsSet(job.prev.data, job.prev.width, x, y)
    requires 0 <= TargetAlpha(job, i, x, y) < |buf|
    ensures Column(job, buf, x, k)[TargetAlpha(job, i, x, y)] == 255
    decreases k
  {
    var next := Visit(job, buf, x, k - 1);
    assert Column(job, buf, x, k) == Column(job, next, x, k - 1);
    var t := TargetAlpha(job, i, x, y);
    if y == k - 1 {
      var orig := GetPixel(job.prev.data, job.prev.width, x as real, y as real).value;
      assert next == Transforms(job, buf, x, y, orig, |job.table|);
      TransformsReach(job, buf, x, y, orig, |job.table|, i);
      ColumnKeepSet(job, next, x, k - 1, t);
    } else {
      ColumnReach(job, next, x, k - 1, y, i);
    }
  }

  lemma {:induction false} PassReach(job: Job, buf: seq<Byte>, k: nat, x: nat, y: nat, i: nat)
    requires x < k && y < job.prev.height && i < |job.table| && IsSet(job.prev.data, job.prev.width, x, y)
    requires 0 <= TargetAlpha(job, i, x, y) < |buf|
    ensures Pass(job, buf, k)[TargetAlpha(job, i, x, y)] == 255
    decreases k
  {
    var next := Column(job, buf, k - 1, job.prev.height);
    assert Pass(job, buf, k) == Pass(job, next, k - 1);
    var t := TargetAlpha(job, i, x, y);
    if x == k - 1 {
      ColumnReach(job, buf, x, job.prev.height, y, i);
      PassKeepSet(job, next, k - 1, t);
    } else {
      PassReach(job, next, k - 1, x, y, i);
    }
  }

  /** Every row of the table sends every set pixel of the previous image to a
      set pixel of the new one, whenever the target lies inside the image. */
  lemma SetPixelsReachImages(job: Job, x: nat, y: nat, i: nat)
    requires x < job.prev.width && y < job.prev.height && i < |job.table|
    requires IsSet(job.prev.data, job.prev.width, x, y)
    requires 0 <= TargetAlpha(job, i, x, y) < job.prev.width * job.prev.height * 4
    ensures NextImage(job).data[TargetAlpha(job, i, x, y)] == 255
  {
    PassReach(job, Blank(job.prev.width, job.prev.height).data, job.prev.width, x, y, i);
  }

  lemma {:induction false} TransformsElsewhere(job: Job, buf: seq<Byte>, x: int, y: int, orig: Rgba, k: nat, j: int)
    requires k <= |job.table| && 0 <= j < |buf|
    requires forall i :: 0 <= i < k ==> TargetAlpha(job, i, x, y) != j - j % 4 + 3
    ensures Transforms(job, buf, x, y, orig, k)[j] == buf[j]
    decreases k
  {
    if k > 0 {
      var row := job.table[k - 1];
      var c := Paint(orig, k - 1, job.mode);
      assert TargetAlpha(job, k - 1, x, y) != j - j % 4 + 3;
      SetPixelElsewhere(buf, job.prev.width, TargetX(job, row, x, y), TargetY(job, row, x, y), c, j);
      TransformsElsewhere(job, SetPixel(buf, job.prev.width, TargetX(job, row, x, y), TargetY(job, row, x, y), c), x, y, orig, k - 1, j);
    }
  }

  lemma {:induction false} ColumnElsewhere(job: Job, buf: seq<Byte>, x: int, k: nat, j: int)
    requires 0 <= j < |buf|
    requires forall y, i :: 0 <= y < k && 0 <= i < |job.table| && IsSet(job.prev.data, job.prev.width, x, y) ==>
      TargetAlpha(job, i, x, y) != j - j % 4 + 3
    ensures Column(job, buf, x, k)[j] == buf[j]
    decreases k
  {
    if k > 0 {
      var y := k - 1;
      var next := Visit(job, buf, x, y);
      if IsSet(job.prev.data, job.prev.width, x, y) {
        TransformsElsewhere(job, buf, x, y, GetPixel(job.prev.data, job.prev.width, x as real, y as real).value, |job.table|, j);
      }
      assert next[j] == buf[j];
      ColumnElsewhere(job, next, x, y, j);
      assert Column(job, buf, x, k) == Column(job, next, x, y);
    }
  }

  lemma {:induction false} PassElsewhere(job: Job, buf: seq<Byte>, k: nat, j: int)
    requires 0 <= j < |buf|
    requires forall x, y, i ::
      0 <= x < k && 0 <= y < job.prev.height && 0 <= i < |job.table| && IsSet(job.prev.data, job.prev.width, x, y)
      ==> TargetAlpha(job, i, x, y) != j - j % 4 + 3
    ensures Pass(job, buf, k)[j] == buf[j]
    decreases k
  {
    if k > 0 {
      var next := Column(job, buf, k - 1, job.prev.height);
      ColumnElsewhere(job, buf, k - 1, job.prev.height, j);
      PassElsewhere(job, next, k - 1, j);
      assert Pass(job, buf, k) == Pass(job, next, k - 1);
    }
  }

  /** Only the targets of set source pixels are written: every other byte of a
      computed image keeps the 0 of the fresh image. */
  lemma OnlyImagesWritten(job: Job, j: int)
    requires 0 <= j < job.prev.width * job.prev.height * 4
    requires forall x, y, i ::
      0 <= x < job.prev.width && 0 <= y < job.prev.height && 0 <= i < |job.table| && IsSet(job.prev.data, job.prev.width, x, y)
      ==> TargetAlpha(job, i, x, y) != j - j % 4 + 3
    ensures NextImage(job).data[j] == 0
  {
    PassElsewhere(job, Blank(job.prev.width, job.prev.height).data, job.prev.width, j);
  }

  /** For one source pixel the rows are applied from the last to the first, so
      at the target of row 0 the colour of row 0 is what remains. */
  lemma {:induction false} RowZeroWritesLast(job: Job, buf: seq<Byte>, x: int, y: int, orig: Rgba, k: nat)
    requires 0 < k <= |job.table|
    requires 0 <= TargetAlpha(job, 0, x, y) - 3 && TargetAlpha(job, 0, x, y) + 1 <= |buf|
    ensures GetPixel(Transforms(job, buf, x, y, orig, k), job.prev.width,
                     TargetX(job, job.table[0], x, y), TargetY(job, job.table[0], x, y))
            == Some(Paint(orig, 0, job.mode))
    decreases k
  {
    var row := job.table[k - 1];
    var next := SetPixel(buf, job.prev.width, TargetX(job, row, x, y), TargetY(job, row, x, y), Paint(orig, k - 1, job.mode));
    assert Transforms(job, buf, x, y, orig, k) == Transforms(job, next, x, y, orig, k - 1);
    if k == 1 {
      GetAfterSet(buf, job.prev.width, TargetX(job, row, x, y), TargetY(job, row, x, y), Paint(orig, 0, job.mode));
    } else {
      RowZeroWritesLast(job, next, x, y, orig, k - 1);
    }
  }

  lemma {:induction false} ColumnUnset(job: Job, buf: seq<Byte>, x: int, k: nat)
    requires forall y :: 0 <= y < k ==> !IsSet(job.prev.data, job.prev.width, x, y)
    ensures Column(job, buf, x, k) == buf
    decreases k
  {
    if k > 0 {
      ColumnUnset(job, buf, x, k - 1);
    }
  }

  lemma {:induction false} PassUnset(job: Job, buf: seq<Byte>, k: nat)
    requires forall x, y :: 0 <= x < k && 0 <= y < job.prev.height ==> !IsSet(job.prev.data, job.prev.width, x, y)
    ensures Pass(job, buf, k) == buf
    decreases k
  {
    if k > 0 {
      ColumnUnset(job, buf, k - 1, job.prev.height);
      PassUnset(job, buf, k - 1);
    }
  }

  /** An image with no set pixel is followed by a fully transparent image. */
  lemma NothingSetGivesBlank(job: Job)
    requires forall x, y :: 0 <= x < job.prev.width && 0 <= y < job.prev.height ==> !IsSet(job.prev.data, job.prev.width, x, y)
    ensures NextImage(job) == Blank(job.prev.width, job.prev.height)
  {
    PassUnset(job, Blank(job.prev.width, job.prev.height).data, job.prev.width);
  }

  class DeterministicIfsPixel {
    var states: seq<Image>
    var iteration: nat
    var dirty: bool
    var heatmap: bool
    const demoColor: bool
    const table: seq<Row>
    const canvasWidth: nat
    const canvasHeight: nat

    ghost predicate Valid()
      reads this
    {
      iteration < |states| &&
      forall k :: 0 <= k < |states| ==>
        Sized(states[k]) && states[k].width == canvasWidth && states[k].height == canvasHeight
    }

    ghost function Hist(): Cursor.History<Image>
      reads this
    {
      Cursor.History(states, iteration)
    }

    function CurrentJob(): Job
      reads this
      requires Valid()
    {
      Job(states[iteration], table, canvasWidth, canvasHeight, Mode(demoColor, heatmap))
    }

    /** initializeFromCanvas: the first state is the canvas contents after the
        seed figure was drawn, passed in as `initial`. */
    constructor (initial: Image, table: seq<Row>, demoColor: bool)
      requires Sized(initial)
      ensures Valid() && Hist() == Cursor.Start(initial)
      ensures !dirty && !heatmap
      ensures this.table == table && this.demoColor == demoColor
      ensures canvasWidth == initial.width && canvasHeight == initial.height
    {
      this.table, this.demoColor := table, demoColor;
      canvasWidth, canvasHeight := initial.width, initial.height;
      states := [initial];
      iteration := 0;
      dirty := false;
      heatmap := false;
    }

    method NextIteration()
      requires Valid()
      modifies this`states, this`iteration, this`dirty
      ensures Valid() && dirty
      ensures Hist() == Cursor.Next(old(Hist()), NextImage(old(CurrentJob())))
    {
      if iteration == |states| - 1 {
        var prevState := states[iteration];
        var w, h := prevState.width, prevState.height;
        var buf := NewPixels(w, h);
        ApplyColumns(buf, prevState);
        assert Image(w, h, buf[..]) == NextImage(CurrentJob());
        states := states + [Image(w, h, buf[..])];
      }
      iteration := iteration + 1;
      dirty := true;
    }

    /** The outer loop of nextIteration: the columns of `prevState` from the right. */
    method ApplyColumns(buf: array<Byte>, prevState: Image)
      modifies buf
      ensures buf[..] == Pass(Job(prevState, table, canvasWidth, canvasHeight, Mode(demoColor, heatmap)),
                              old(buf[..]), prevState.width)
    {
      ghost var job := Job(prevState, table, canvasWidth, canvasHeight, Mode(demoColor, heatmap));
      var x: int := prevState.width as int - 1;
      while x >= 0
        invariant -1 <= x < prevState.width
        invariant Pass(job, buf[..], x + 1) == Pass(job, old(buf[..]), prevState.width)
      {
        ghost var before := buf[..];
        ApplyColumn(buf, prevState, x);
        assert Pass(job, before, x + 1) == Pass(job, buf[..], x);
        x := x - 1;
      }
    }

    /** The middle loop of nextIteration: the pixels of column x of `prevState`
        from the bottom up. */
    method ApplyColumn(buf: array<Byte>, prevState: Image, x: int)
      modifies buf
      ensures buf[..] == Column(Job(prevState, table, canvasWidth, canvasHeight, Mode(demoColor, heatmap)),
                                old(buf[..]), x, prevState.height)
    {
      ghost var job := Job(prevState, table, canvasWidth, canvasHeight, Mode(demoColor, heatmap));
      var y: int := prevState.height as int - 1;
      while y >= 0
        invariant -1 <= y < prevState.height
        invariant Column(job, buf[..], x, y + 1) == Column(job, old(buf[..]), x, prevState.height)
      {
        ghost var visited := buf[..];
        assert Column(job, visited, x, y + 1) == Column(job, Visit(job, visited, x, y), x, y);
        if IsSet(prevState.data, prevState.width, x, y) {
          var originalColors := GetPixel(prevState.data, prevState.width, x as real, y as real).value;
          ApplyTable(buf, prevState, x, y, originalColors);
        }
        assert buf[..] == Visit(job, visited, x, y);
        y := y - 1;
      }
    }

    /** The innermost loop of nextIteration: the rows from the last to the first
        copy the set pixel (x, y) of `prevState` into `buf`. */
    method ApplyTable(buf: array<Byte>, prevState: Image, x: int, y: int, originalColors: Rgba)
      modifies buf
      ensures buf[..] == Transforms(Job(prevState, table, canvasWidth, canvasHeight, Mode(demoColor, heatmap)),
                                    old(buf[..]), x, y, originalColors, |table|)
    {
      var job := Job(prevState, table, canvasWidth, canvasHeight, Mode(demoColor, heatmap));
      var i: int := |table| - 1;
      while i >= 0
        invariant -1 <= i < |table|
        invariant Transforms(job, buf[..], x, y, originalColors, i + 1) == Transforms(job, old(buf[..]), x, y, originalColors, |table|)
      {
        var row := table[i];
        ghost var before := buf[..];
        PutPixel(buf, prevState.width, TargetX(job, row, x, y), TargetY(job, row, x, y), Paint(originalColors, i, job.mode));
        assert Transforms(job, before, x, y, originalColors, i + 1) == Transforms(job, buf[..], x, y, originalColors, i);
        i := i - 1;
      }
    }

    method PrevIteration()
      requires Valid()
      modifies this`iteration, this`dirty
      ensures Valid()
      ensures Hist() == Cursor.Prev(old(Hist()))
      ensures dirty == (old(dirty) || old(iteration) > 0)
    {
      if iteration > 0 {
        iteration := iteration - 1;
        dirty := true;
      }
    }
  }
}
