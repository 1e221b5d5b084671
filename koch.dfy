/** The Koch snowflake builder: each refinement replaces every point of the
    closed outline by four points (itself, the points at one and two thirds of
    the way to the next point, and the apex between them), the three new ones
    tagged with the new iteration number; undoing a refinement filters the
    points by tag. The apex is computed with square roots and trigonometry in
    the source and is an abstract function of the two end points here. */
module Koch {
  import opened Wrappers

  /** A point of the outline; `gen` is absent on the initial polygon. */
  datatype Pt = Pt(x: real, y: real, gen: Option<nat>)

  /** `this.parts`, the number of pieces a side is cut into. */
  const Parts: real := 3.0
  /** `this.nextSegment`, the piece at whose start the third new point lies. */
  const NextSegment: real := 2.0
  /** Refinement stops once the iteration exceeds this. */
  const MaxIteration: nat := 7

  /** The apex point between the current point (x0, y0) and the next (x1, y1). */
  type Apex = (real, real, real, real) -> (real, real)

  /** The four points that replace point i. */
  function Quad(lines: seq<Pt>, i: nat, gen: nat, apex: Apex): seq<Pt>
    requires i < |lines|
  {
    var cur, nxt := lines[i], lines[(i + 1) % |lines|];
    var segX, segY := (nxt.x - cur.x) / Parts, (nxt.y - cur.y) / Parts;
    var top := apex(cur.x, cur.y, nxt.x, nxt.y);
    [cur,
     Pt(cur.x + segX, cur.y + segY, Some(gen)),
     Pt(top.0, top.1, Some(gen)),
     Pt(cur.x + segX * NextSegment, cur.y + segY * NextSegment, Some(gen))]
  }

  /** The refinement of the first m points, in order. */
  function Refine(lines: seq<Pt>, gen: nat, apex: Apex, m: nat): seq<Pt>
    requires m <= |lines|
  {
    if m == 0 then [] else Refine(lines, gen, apex, m - 1) + Quad(lines, m - 1, gen, apex)
  }

  /** Layout of a refinement: four points per original point; original point i
      reappears unchanged at 4i; the points at 4i+1 and 4i+3 lie one and two
      thirds of the way to the next point; the three new points carry `gen`. */
  lemma {:induction false} RefineLayout(lines: seq<Pt>, gen: nat, apex: Apex, m: nat, i: nat)
    requires i < m <= |lines|
    ensures |Refine(lines, gen, apex, m)| == 4 * m
    ensures var r, cur, nxt := Refine(lines, gen, apex, m), lines[i], lines[(i + 1) % |lines|];
      && r[4 * i] == cur
      && r[4 * i + 1] == Pt(cur.x + (nxt.x - cur.x) / 3.0, cur.y + (nxt.y - cur.y) / 3.0, Some(gen))
      && r[4 * i + 2].gen == Some(gen)
      && r[4 * i + 3] == Pt(cur.x + 2.0 * (nxt.x - cur.x) / 3.0, cur.y + 2.0 * (nxt.y - cur.y) / 3.0, Some(gen))
    decreases m
  {
    RefineLength(lines, gen, apex, m - 1);
    if i < m - 1 {
      RefineLayout(lines, gen, apex, m - 1, i);
    }
  }

  lemma {:induction false} RefineLength(lines: seq<Pt>, gen: nat, apex: Apex, m: nat)
    requires m <= |lines|
    ensures |Refine(lines, gen, apex, m)| == 4 * m
    decreases m
  {
    if m > 0 {
      RefineLength(lines, gen, apex, m - 1);
    }
  }

  /** prevIteration's test: a point stays if it has no tag or a tag <= gen. */
  predicate Kept(p: Pt, gen: nat)
  {
    p.gen.None? || p.gen.value <= gen
  }

  /** The points that stay, in order. */
  function Keep(lines: seq<Pt>, gen: nat): seq<Pt>
  {
    if lines == [] then []
    else Keep(lines[..|lines| - 1], gen) + (if Kept(lines[|lines| - 1], gen) then [lines[|lines| - 1]] else [])
  }

  lemma {:induction false} KeepConcat(a: seq<Pt>, b: seq<Pt>, gen: nat)
    ensures Keep(a + b, gen) == Keep(a, gen) + Keep(b, gen)
    decreases |b|
  {
    if b == [] {
      assert a + b == a;
    } else {
      assert (a + b)[..|a + b| - 1] == a + b[..|b| - 1];
      KeepConcat(a, b[..|b| - 1], gen);
    }
  }

  lemma {:induction false} KeepNone(lines: seq<Pt>, gen: nat)
    requires forall i :: 0 <= i < |lines| ==> !Kept(lines[i], gen)
    ensures Keep(lines, gen) == []
    decreases |lines|
  {
    if lines != [] {
      KeepNone(lines[..|lines| - 1], gen);
    }
  }

  /** No point carries a tag above gen. */
  predicate TagsAtMost(lines: seq<Pt>, gen: nat)
  {
    forall p :: p in lines && p.gen.Some? ==> p.gen.value <= gen
  }

  /** Points that pass the test are all kept, in order. */
  lemma {:induction false} KeepAll(lines: seq<Pt>, gen: nat)
    requires TagsAtMost(lines, gen)
    ensures Keep(lines, gen) == lines
    decreases |lines|
  {
    if lines != [] {
      assert lines[..|lines| - 1] + [lines[|lines| - 1]] == lines;
      KeepAll(lines[..|lines| - 1], gen);
    }
  }

  /** Keep removes exactly the points tagged above gen: it keeps them in order,
      and everything it keeps passes the test. */
  lemma {:induction false} KeepSound(lines: seq<Pt>, gen: nat)
    ensures TagsAtMost(Keep(lines, gen), gen)
    ensures forall p :: p in Keep(lines, gen) ==> p in lines
    ensures forall p :: p in lines && Kept(p, gen) ==> p in Keep(lines, gen)
    decreases |lines|
  {
    if lines != [] {
      var init := lines[..|lines| - 1];
      KeepSound(init, gen);
      assert lines == init + [lines[|lines| - 1]];
    }
  }

  /** Of the four points replacing point i, only point i itself survives. */
  lemma KeepQuad(lines: seq<Pt>, i: nat, gen: nat, apex: Apex)
    requires i < |lines| && Kept(lines[i], gen)
    ensures Keep(Quad(lines, i, gen + 1, apex), gen) == [lines[i]]
  {
    var q := Quad(lines, i, gen + 1, apex);
    assert q == [lines[i]] + q[1..];
    KeepNone(q[1..], gen);
    KeepConcat([lines[i]], q[1..], gen);
    assert Keep([lines[i]], gen) == [lines[i]] by {
      assert [lines[i]][..0] == [];
    }
  }

  /** Round trip: filtering a refinement made with tag gen + 1 at gen gives the
      outline back, provided no point was tagged above gen before. */
  lemma {:induction false} UndoRefine(lines: seq<Pt>, gen: nat, apex: Apex, m: nat)
    requires m <= |lines|
    requires TagsAtMost(lines, gen)
    ensures Keep(Refine(lines, gen + 1, apex, m), gen) == lines[..m]
    decreases m
  {
    if m > 0 {
      UndoRefine(lines, gen, apex, m - 1);
      assert lines[m - 1] in lines;
      KeepConcat(Refine(lines, gen + 1, apex, m - 1), Quad(lines, m - 1, gen + 1, apex), gen);
      KeepQuad(lines, m - 1, gen, apex);
      assert lines[..m - 1] + [lines[m - 1]] == lines[..m];
    }
  }

  /** A refinement with tag gen introduces no tag above gen. */
  lemma {:induction false} RefineTags(lines: seq<Pt>, gen: nat, apex: Apex, m: nat)
    requires m <= |lines|
    requires TagsAtMost(lines, gen)
    ensures TagsAtMost(Refine(lines, gen, apex, m), gen)
    decreases m
  {
    if m > 0 {
      RefineTags(lines, gen, apex, m - 1);
      var before, q := Refine(lines, gen, apex, m - 1), Quad(lines, m - 1, gen, apex);
      assert Refine(lines, gen, apex, m) == before + q;
      forall p: Pt | p in before + q && p.gen.Some?
        ensures p.gen.value <= gen
      {
        if p !in before {
          assert p in q;
          assert lines[m - 1] in lines;
        }
      }
    }
  }

  /** The untagged points (the initial polygon), in order. */
  function Untagged(lines: seq<Pt>): seq<Pt>
  {
    if lines == [] then []
    else Untagged(lines[..|lines| - 1]) + (if lines[|lines| - 1].gen.None? then [lines[|lines| - 1]] else [])
  }

  lemma {:induction false} UntaggedNone(lines: seq<Pt>)
    requires forall i :: 0 <= i < |lines| ==> lines[i].gen.Some?
    ensures Untagged(lines) == []
    decreases |lines|
  {
    if lines != [] {
      UntaggedNone(lines[..|lines| - 1]);
    }
  }

  lemma {:induction false} UntaggedAll(lines: seq<Pt>)
    requires forall i :: 0 <= i < |lines| ==> lines[i].gen.None?
    ensures Untagged(lines) == lines
    decreases |lines|
  {
    if lines != [] {
      UntaggedAll(lines[..|lines| - 1]);
      assert lines[..|lines| - 1] + [lines[|lines| - 1]] == lines;
    }
  }

  lemma {:induction false} UntaggedConcat(a: seq<Pt>, b: seq<Pt>)
    ensures Untagged(a + b) == Untagged(a) + Untagged(b)
    decreases |b|
  {
    if b == [] {
      assert a + b == a;
    } else {
      assert (a + b)[..|a + b| - 1] == a + b[..|b| - 1];
      UntaggedConcat(a, b[..|b| - 1]);
    }
  }

  /** Undoing never removes an untagged point. */
  lemma {:induction false} KeepKeepsUntagged(lines: seq<Pt>, gen: nat)
    ensures Untagged(Keep(lines, gen)) == Untagged(lines)
    decreases |lines|
  {
    if lines != [] {
      var init, last := lines[..|lines| - 1], lines[|lines| - 1];
      KeepKeepsUntagged(init, gen);
      assert lines == init + [last];
      UntaggedConcat(init, [last]);
      if Kept(last, gen) {
        UntaggedConcat(Keep(init, gen), [last]);
      } else {
        assert Keep(lines, gen) == Keep(init, gen) + [];
        assert Keep(init, gen) + [] == Keep(init, gen);
        UntaggedNone([last]);
      }
      if last.gen.None? {
        UntaggedAll([last]);
      } else {
        UntaggedNone([last]);
      }
    }
  }

  /** Refining keeps the untagged points, in order, and adds none. */
  lemma {:induction false} RefineKeepsUntagged(lines: seq<Pt>, gen: nat, apex: Apex, m: nat)
    requires m <= |lines|
    ensures Untagged(Refine(lines, gen, apex, m)) == Untagged(lines[..m])
    decreases m
  {
    if m > 0 {
      RefineKeepsUntagged(lines, gen, apex, m - 1);
      var q := Quad(lines, m - 1, gen, apex);
      UntaggedConcat(Refine(lines, gen, apex, m - 1), q);
      assert q == [q[0]] + q[1..];
      UntaggedConcat([q[0]], q[1..]);
      UntaggedNone(q[1..]);
      if q[0].gen.None? {
        UntaggedAll([q[0]]);
      } else {
        UntaggedNone([q[0]]);
      }
      assert lines[..m] == lines[..m - 1] + [lines[m - 1]];
      UntaggedConcat(lines[..m - 1], [lines[m - 1]]);
    }
  }

  /** Length and untagged points of a whole refinement. */
  lemma RefineFacts(lines: seq<Pt>, gen: nat, apex: Apex)
    ensures |Refine(lines, gen, apex, |lines|)| == 4 * |lines|
    ensures Untagged(Refine(lines, gen, apex, |lines|)) == Untagged(lines)
  {
    RefineLength(lines, gen, apex, |lines|);
    RefineKeepsUntagged(lines, gen, apex, |lines|);
    assert lines[..|lines|] == lines;
  }

  class KochSnowflake {
    var lines: seq<Pt>
    var iteration: nat
    var dirty: bool
    const apex: Apex

    /** Every tag is at most the current iteration, which is at most 8. */
    ghost predicate Valid()
      reads this
    {
      iteration <= MaxIteration + 1 && TagsAtMost(lines, iteration)
    }

    /** Builds the polygon from `vertices` (their trigonometric placement is
        abstract: vertex i of 3) and refines it three times. */
    constructor (vertex: nat -> (real, real), apex: Apex)
      ensures Valid() && iteration == 3 && dirty
      ensures |lines| == 3 * 64
      ensures Untagged(lines) == [Pt(vertex(0).0, vertex(0).1, None), Pt(vertex(1).0, vertex(1).1, None),
                                  Pt(vertex(2).0, vertex(2).1, None)]
    {
      lines := [];
      iteration := 0;
      dirty := true;
      this.apex := apex;
      new;
      InitializeLines(vertex);
      ghost var polygon := lines;
      UntaggedAll(polygon);
      NextIteration();
      RefineFacts(polygon, 1, apex);
      ghost var once := lines;
      NextIteration();
      RefineFacts(once, 2, apex);
      ghost var twice := lines;
      NextIteration();
      RefineFacts(twice, 3, apex);
    }

    /** initializeLines: appends the three vertices of the polygon. */
    method InitializeLines(vertex: nat -> (real, real))
      requires lines == [] && iteration == 0
      modifies this`lines, this`dirty
      ensures Valid() && dirty
      ensures lines == [Pt(vertex(0).0, vertex(0).1, None), Pt(vertex(1).0, vertex(1).1, None),
                        Pt(vertex(2).0, vertex(2).1, None)]
    {
      var i := 0;
      while i < 3
        invariant 0 <= i <= 3 && |lines| == i
        invariant forall k :: 0 <= k < i ==> lines[k] == Pt(vertex(k).0, vertex(k).1, None)
      {
        lines := lines + [Pt(vertex(i).0, vertex(i).1, None)];
        i := i + 1;
      }
      dirty := true;
    }

    /** nextIteration: a no-op above iteration 7; otherwise the iteration goes
        up by one and the outline is refined with the new iteration as tag. */
    method NextIteration()
      requires Valid()
      modifies this`lines, this`iteration, this`dirty
      ensures Valid()
      ensures old(iteration) > MaxIteration ==> lines == old(lines) && iteration == old(iteration) && dirty == old(dirty)
      ensures old(iteration) <= MaxIteration ==>
        && iteration == old(iteration) + 1 && dirty
        && lines == Refine(old(lines), iteration, apex, |old(lines)|)
    {
      if iteration > MaxIteration {
        return;
      }
      var length := |lines|;
      var newLines: seq<Pt> := [];
      iteration := iteration + 1;
      var i := 0;
      while i < length
        invariant 0 <= i <= length
        invariant lines == old(lines) && iteration == old(iteration) + 1
        invariant newLines == Refine(lines, iteration, apex, i)
      {
        var quad := QuadAt(i);
        assert Refine(lines, iteration, apex, i + 1) == newLines + quad;
        newLines := newLines + quad;
        i := i + 1;
      }
      RefineTags(lines, iteration, apex, length);
      assert TagsAtMost(newLines, iteration);
      lines := newLines;
      dirty := true;
    }

    /** The body of nextIteration's loop: the four points that replace point
        i, the three new ones tagged with the current iteration. */
    method QuadAt(i: nat) returns (quad: seq<Pt>)
      requires i < |lines|
      ensures quad == Quad(lines, i, iteration, apex)
    {
      var currentPt := lines[i];
      var nextPt := lines[(i + 1) % |lines|];
      var deltaX := nextPt.x - currentPt.x;
      var deltaY := nextPt.y - currentPt.y;
      var segX := deltaX / Parts;
      var segY := deltaY / Parts;
      var top := apex(currentPt.x, currentPt.y, nextPt.x, nextPt.y);
      quad := [currentPt,
               Pt(currentPt.x + segX, currentPt.y + segY, Some(iteration)),
               Pt(top.0, top.1, Some(iteration)),
               Pt(currentPt.x + segX * NextSegment, currentPt.y + segY * NextSegment, Some(iteration))];
    }

    /** prevIteration: a no-op at 0; otherwise the iteration goes down by one
        and exactly the points tagged above it are dropped, order kept. */
    method PrevIteration()
      requires Valid()
      modifies this`lines, this`iteration, this`dirty
      ensures Valid()
      ensures old(iteration) == 0 ==> lines == old(lines) && iteration == 0 && dirty == old(dirty)
      ensures old(iteration) > 0 ==>
        iteration == old(iteration) - 1 && dirty && lines == Keep(old(lines), iteration)
    {
      if iteration == 0 {
        return;
      }
      iteration := iteration - 1;
      var newLines: seq<Pt> := [];
      var i := 0;
      while i < |lines|
        invariant 0 <= i <= |lines|
        invariant newLines == Keep(lines[..i], iteration)
      {
        assert lines[..i + 1][..i] == lines[..i];
        if lines[i].gen.None? || lines[i].gen.value <= iteration {
          newLines := newLines + [lines[i]];
        }
        i := i + 1;
      }
      assert lines[..i] == lines;
      KeepSound(lines, iteration);
      lines := newLines;
      dirty := true;
    }
  }

  /** prevIteration right after a refining nextIteration restores the outline. */
  lemma NextThenPrev(lines: seq<Pt>, iteration: nat, apex: Apex)
    requires TagsAtMost(lines, iteration)
    ensures Keep(Refine(lines, iteration + 1, apex, |lines|), iteration) == lines
  {
    UndoRefine(lines, iteration, apex, |lines|);
    assert lines[..|lines|] == lines;
  }
}
