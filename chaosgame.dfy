/** The chaos game: a point repeatedly jumps a fixed fraction of the way
    toward a chosen vertex of a polygon, its coordinates floored after every
    jump, and each landing is plotted black and opaque into a copy of the
    current image. The first 21 landings of the very first iteration are not
    plotted. */
module ChaosGame {
  import Cursor
  import opened Wrappers
  import opened Raster

  /** Jumps per computed iteration. */
  const Step: nat := 10000
  /** On iteration 0, the jumps i = 0 .. BurnIn move the point without plotting. */
  const BurnIn: nat := 20

  datatype Vertex = Vertex(x: real, y: real)

  /** defaultRule: the draw r scaled to the number of vertices and floored. */
  function DefaultRule(r: real, n: nat): (i: int)
    ensures 0.0 <= r < 1.0 && n > 0 ==> 0 <= i < n
  {
    ScaledBelow(r, n);
    (r * n as real).Floor
  }

  lemma ScaledBelow(r: real, n: nat)
    ensures 0.0 <= r < 1.0 && n > 0 ==> 0.0 <= r * n as real < n as real
  {
    if 0.0 <= r < 1.0 && n > 0 {
      MulNonneg(r, n as real);
      MulNonneg(1.0 - r, n as real);
      assert n as real - r * n as real == (1.0 - r) * n as real;
      assert 0.0 < (1.0 - r) * n as real;
    }
  }

  /** One coordinate of a jump: floor(p + (v - p) * fraction). */
  function Move(p: int, v: real, fraction: real): int
  {
    (p as real + (v - p as real) * fraction).Floor
  }

  /** A jump toward a vertex inside [0, bound) with a fraction in [0, 1] lands
      inside [0, bound). */
  lemma MoveStaysInside(p: int, v: real, fraction: real, bound: nat)
    requires 0 <= p < bound && 0.0 <= v < bound as real && 0.0 <= fraction <= 1.0
    ensures 0 <= Move(p, v, fraction) < bound
  {
    var d := v - p as real;
    var q := p as real + d * fraction;
    assert d - d * fraction == d * (1.0 - fraction);
    if d >= 0.0 {
      MulNonneg(d, fraction);
      MulNonneg(d, 1.0 - fraction);
    } else {
      MulNonneg(-d, fraction);
      MulNonneg(-d, 1.0 - fraction);
    }
    assert 0.0 <= q < bound as real;
  }

  /** A product of non-negative reals is non-negative; kept apart so that the
      nonlinear step is proved in a context of its own. */
  lemma MulNonneg(a: real, b: real)
    requires 0.0 <= a && 0.0 <= b
    ensures 0.0 <= a * b
  {
  }

  /** The moving point and the buffer being plotted into. */
  datatype Plot = Plot(x: int, y: int, data: seq<Byte>)

  /** Everything a computed iteration depends on besides the starting plot. */
  datatype Game = Game(vertices: seq<Vertex>, fraction: real, width: nat, iteration: nat, picks: seq<int>)

  predicate PicksValid(g: Game)
  {
    forall i :: 0 <= i < |g.picks| ==> 0 <= g.picks[i] < |g.vertices|
  }

  /** Whether jump i is plotted. */
  predicate Plotted(g: Game, i: nat)
  {
    g.iteration > 0 || i > BurnIn
  }

  /** Jump i from plot p toward the vertex picks[i]. */
  function Jump(g: Game, p: Plot, i: nat): Plot
    requires i < |g.picks| && PicksValid(g)
  {
    var v := g.vertices[g.picks[i]];
    var x, y := Move(p.x, v.x, g.fraction), Move(p.y, v.y, g.fraction);
    Plot(x, y, if Plotted(g, i) then SetPixel(p.data, g.width, x as real, y as real, Rgba(0, 0, 0, 255)) else p.data)
  }

  /** The plot after the first n jumps. */
  function Run(g: Game, start: Plot, n: nat): (p: Plot)
    requires n <= |g.picks| && PicksValid(g)
    ensures |p.data| == |start.data|
  {
    if n == 0 then start else Jump(g, Run(g, start, n - 1), n - 1)
  }

  /** Burn-in: on iteration 0 the first BurnIn + 1 jumps leave the image as it was. */
  lemma {:induction false} BurnInPlotsNothing(g: Game, start: Plot, n: nat)
    requires n <= |g.picks| && PicksValid(g) && g.iteration == 0 && n <= BurnIn + 1
    ensures Run(g, start, n).data == start.data
  {
    if n > 0 {
      BurnInPlotsNothing(g, start, n - 1);
    }
  }

  /** After a plotted jump the pixel under the point is black and opaque. */
  lemma LandingIsBlack(g: Game, start: Plot, n: nat)
    requires 0 < n <= |g.picks| && PicksValid(g) && Plotted(g, n - 1)
    requires var p := Run(g, start, n); 0 <= Offset(g.width, p.x as real, p.y as real) && Offset(g.width, p.x as real, p.y as real) + 4 <= |start.data|
    ensures var p := Run(g, start, n); GetPixel(p.data, g.width, p.x as real, p.y as real) == Some(Rgba(0, 0, 0, 255))
  {
    var prev := Run(g, start, n - 1);
    var p := Run(g, start, n);
    GetAfterSet(prev.data, g.width, p.x as real, p.y as real, Rgba(0, 0, 0, 255));
  }

  /** With every vertex inside the canvas and a fraction in [0, 1], a point that
      starts inside the canvas stays inside it. */
  lemma {:induction false} RunStaysInside(g: Game, start: Plot, n: nat, height: nat)
    requires n <= |g.picks| && PicksValid(g)
    requires 0.0 <= g.fraction <= 1.0
    requires forall v :: v in g.vertices ==> 0.0 <= v.x < g.width as real && 0.0 <= v.y < height as real
    requires 0 <= start.x < g.width && 0 <= start.y < height
    ensures 0 <= Run(g, start, n).x < g.width && 0 <= Run(g, start, n).y < height
  {
    if n > 0 {
      RunStaysInside(g, start, n - 1, height);
      var p := Run(g, start, n - 1);
      var v := g.vertices[g.picks[n - 1]];
      MoveStaysInside(p.x, v.x, g.fraction, g.width);
      MoveStaysInside(p.y, v.y, g.fraction, height);
    }
  }

  /** A pixel already set (alpha 255) stays set: images only accumulate. */
  lemma {:induction false} RunKeepsSet(g: Game, start: Plot, n: nat, j: int)
    requires n <= |g.picks| && PicksValid(g)
    requires 0 <= j < |start.data| && j % 4 == 3 && start.data[j] == 255
    ensures Run(g, start, n).data[j] == 255
  {
    if n > 0 {
      RunKeepsSet(g, start, n - 1, j);
      var p := Run(g, start, n - 1);
      var v := g.vertices[g.picks[n - 1]];
      if Plotted(g, n - 1) {
        SetPixelKeepsSet(p.data, g.width, Move(p.x, v.x, g.fraction) as real, Move(p.y, v.y, g.fraction) as real, Rgba(0, 0, 0, 255), j);
      }
    }
  }

  class ChaosGame {
    var states: seq<Image>
    var iteration: nat
    var dirty: bool
    var x: int
    var y: int
    var vertices: seq<Vertex>
    const fraction: real
    const drawPolygon: bool
    const canvasWidth: nat
    const canvasHeight: nat

    ghost predicate Valid()
      reads this
    {
      iteration < |states| &&
      forall k :: 0 <= k < |states| ==>
        Sized(states[k]) && states[k].width == canvasWidth && states[k].height == canvasHeight
    }

    ghost function Hist(): Cursor.History<Image>
      reads this
    {
      Cursor.History(states, iteration)
    }

    /** The constructor and initialize: `polygon(i)` is vertex i (its placement
        on a circle is trigonometry, outside this model), and rx, ry are the two
        draws that place the starting point. */
    constructor (canvasWidth: nat, canvasHeight: nat, nVertices: nat, fraction: real, drawFigure: bool,
                 polygon: nat -> Vertex, rx: real, ry: real)
      ensures Valid() && Hist() == Cursor.Start(Blank(canvasWidth, canvasHeight)) && dirty
      ensures |vertices| == nVertices && forall i :: 0 <= i < nVertices ==> vertices[i] == polygon(i)
      ensures x == DefaultRule(rx, canvasWidth) && y == DefaultRule(ry, canvasHeight)
      ensures 0.0 <= rx < 1.0 && 0.0 <= ry < 1.0 && canvasWidth > 0 && canvasHeight > 0 ==>
        0 <= x < canvasWidth && 0 <= y < canvasHeight
      ensures this.fraction == fraction && this.canvasWidth == canvasWidth && this.canvasHeight == canvasHeight
    {
      this.fraction, this.drawPolygon := fraction, drawFigure;
      this.canvasWidth, this.canvasHeight := canvasWidth, canvasHeight;
      iteration := 0;
      var points: seq<Vertex> := [];
      var i := 0;
      while i < nVertices
        invariant 0 <= i <= nVertices && |points| == i
        invariant forall k :: 0 <= k < i ==> points[k] == polygon(k)
      {
        points := points + [polygon(i)];
        i := i + 1;
      }
      vertices := points;
      x := (rx * canvasWidth as real).Floor;
      y := (ry * canvasHeight as real).Floor;
      states := [Blank(canvasWidth, canvasHeight)];
      dirty := true;
    }

    /** nextIteration: `picks` are the Step vertex indices the rule returns. */
    method NextIteration(picks: seq<int>)
      requires Valid()
      requires |picks| == Step && forall i :: 0 <= i < |picks| ==> 0 <= picks[i] < |vertices|
      modifies this`states, this`iteration, this`dirty, this`x, this`y
      ensures Valid() && dirty
      ensures var g := Game(vertices, fraction, canvasWidth, old(iteration), picks);
        var start := Plot(old(x), old(y), old(states[iteration].data));
        var end := Run(g, start, Step);
        if Cursor.AtLast(old(Hist())) then
          Hist() == Cursor.Next(old(Hist()), Image(canvasWidth, canvasHeight, end.data)) && x == end.x && y == end.y
        else
          Hist() == Cursor.Next(old(Hist()), old(states[iteration])) && x == old(x) && y == old(y)
    {
      if iteration == |states| - 1 {
        var newState := CopyBytes(states[iteration].data);
        PlotJumps(newState, picks);
        states := states + [Image(canvasWidth, canvasHeight, newState[..])];
      }
      iteration := iteration + 1;
      dirty := true;
    }

    /** The step loop of nextIteration: Step jumps from (x, y), plotted into
        `newState` after the burn-in. */
    method PlotJumps(newState: array<Byte>, picks: seq<int>)
      requires |picks| == Step && forall i :: 0 <= i < |picks| ==> 0 <= picks[i] < |vertices|
      modifies this`x, this`y, newState
      ensures var end := Run(Game(vertices, fraction, canvasWidth, iteration, picks), Plot(old(x), old(y), old(newState[..])), Step);
        x == end.x && y == end.y && newState[..] == end.data
    {
      ghost var g := Game(vertices, fraction, canvasWidth, iteration, picks);
      ghost var start := Plot(x, y, newState[..]);
      var i := 0;
      while i < Step
        invariant 0 <= i <= Step
        invariant vertices == old(vertices) && iteration == old(iteration)
        invariant Plot(x, y, newState[..]) == Run(g, start, i)
      {
        JumpOnce(newState, picks, i);
        i := i + 1;
      }
    }

    /** One jump of nextIteration's loop: toward vertex picks[i], plotted after
        the burn-in. */
    method JumpOnce(newState: array<Byte>, picks: seq<int>, i: nat)
      requires i < |picks| && forall k :: 0 <= k < |picks| ==> 0 <= picks[k] < |vertices|
      modifies this`x, this`y, newState
      ensures Plot(x, y, newState[..])
           == Jump(Game(vertices, fraction, canvasWidth, iteration, picks), old(Plot(x, y, newState[..])), i)
    {
      ghost var target := Jump(Game(vertices, fraction, canvasWidth, iteration, picks), Plot(x, y, newState[..]), i);
      var point := vertices[picks[i]];
      var distanceX := point.x - x as real;
      var distanceY := point.y - y as real;
      x := (x as real + distanceX * fraction).Floor;
      y := (y as real + distanceY * fraction).Floor;
      assert x == target.x && y == target.y;
      if iteration > 0 || i > 20 {
        PutPixel(newState, canvasWidth, x as real, y as real, Rgba(0, 0, 0, 255));
      }
      assert Plot(x, y, newState[..]) == target;
    }

    method PrevIteration()
      requires Valid()
      modifies this`iteration, this`dirty
      ensures Valid()
      ensures Hist() == Cursor.Prev(old(Hist()))
      ensures dirty == (old(dirty) || old(iteration) > 0)
    {
      if iteration > 0 {
        iteration := iteration - 1;
        dirty := true;
      }
    }
  }
}
