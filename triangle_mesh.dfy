/**
 * The random mesh generator: a frontier of edges is seeded with one edge;
 * then, once per remaining vertex, the front edge is taken, two triangles are
 * grown off it (each with a freshly drawn apex, whose two new edges join the
 * back of the frontier) and the edge is retired.
 *
 * The C library generator behind `rand()` is reseeded with a fixed value
 * before use, so the values it returns form one fixed sequence. The model
 * takes that sequence as the stream `rand` and threads a cursor counting the
 * values consumed so far.
 */
module Mesh {
  import opened Common

  /** Coordinates are drawn as integer hundredths below this bound. */
  const VertexDistOrigMax: int := 100000
  const VertexDistDivisor: real := 100.0

  /** How many times a degenerate apex is redrawn before giving up. */
  const MaxRedraws: nat := 1000

  /** The values `rand()` returns after reseeding, in order. */
  type RandStream = nat -> nat

  /** `c` is k/100 for an integer 0 <= k < 100000. */
  ghost predicate OnGrid(c: real)
  {
    && 0 <= (c * VertexDistDivisor).Floor < VertexDistOrigMax
    && (c * VertexDistDivisor).Floor as real == c * VertexDistDivisor
  }

  ghost predicate IsGridPoint(p: Point)
  {
    OnGrid(p.x) && OnGrid(p.y) && OnGrid(p.z)
  }

  /** One coordinate from one `rand()` value. */
  function Coordinate(r: nat): (c: real)
    ensures 0.0 <= c < 1000.0
  {
    (r % VertexDistOrigMax) as real / VertexDistDivisor
  }

  /** Every drawn coordinate is a whole number of hundredths below 1000. */
  lemma CoordinateIsOnGrid(r: nat)
    ensures OnGrid(Coordinate(r))
  {
    var k := r % VertexDistOrigMax;
    assert Coordinate(r) * VertexDistDivisor == k as real;
  }

  /** The point three consecutive `rand()` values starting at `cursor` give. */
  function PointAt(rand: RandStream, cursor: nat): (p: Point)
  {
    Point(Coordinate(rand(cursor)), Coordinate(rand(cursor + 1)), Coordinate(rand(cursor + 2)))
  }

  /** Draws a point coordinate by coordinate into a three-element buffer. */
  method RandomPoint(rand: RandStream, cursor: nat) returns (p: Point, next: nat)
    ensures p == PointAt(rand, cursor) && IsGridPoint(p)
    ensures next == cursor + 3
  {
    var coords := new real[3];
    for j := 0 to 3
      invariant forall i :: 0 <= i < j ==> coords[i] == Coordinate(rand(cursor + i))
    {
      coords[j] := Coordinate(rand(cursor + j));
    }
    p := Point(coords[0], coords[1], coords[2]);
    next := cursor + 3;
    CoordinateIsOnGrid(rand(cursor));
    CoordinateIsOnGrid(rand(cursor + 1));
    CoordinateIsOnGrid(rand(cursor + 2));
  }

  /** The target vertex count drawn from one `rand()` value. */
  function NumVertices(r: nat): (n: int)
    ensures VertexMin <= n <= VertexMin + VertexMax - 1
  {
    r % VertexMax + VertexMin
  }

  /** Every point the generator draws for the mesh: the two seed points, then
      one apex per triangle. */
  ghost function DrawnPoints(seed: Edge, tris: seq<Triangle>): (pts: seq<Point>)
    ensures |pts| == 2 + |tris|
  {
    [seed.first, seed.second] + seq(|tris|, k requires 0 <= k < |tris| => tris[k].c)
  }

  /** The vertex count as the code produces it: a complete mesh grown from a
      target of n (which can be as large as VertexMin + VertexMax - 1, above
      VertexMax) holds 2n - 2 drawn points, not n. */
  lemma VertexCountAsWritten(seed: Edge, tris: seq<Triangle>, r: nat)
    requires |tris| == 2 * (NumVertices(r) - 2)
    ensures |DrawnPoints(seed, tris)| == 2 * NumVertices(r) - 2 > NumVertices(r)
    ensures NumVertices(VertexMax - 1) == VertexMin + VertexMax - 1 > VertexMax
  {
  }

  /** The degeneracy loop as written: its flag starts true and each pass
      rebuilds the triangle from the same `a`, `b`, `p` and retests it.
      `StillLooping(a, b, p, n)` says the loop is still running after `n`
      passes. */
  predicate StillLooping(a: Point, b: Point, p: Point, passes: nat)
    ensures StillLooping(a, b, p, passes) && passes > 0 ==> IsDegenerate(Triangle(a, b, p))
  {
    if passes == 0 then true
    else StillLooping(a, b, p, passes - 1) && IsDegenerate(Triangle(a, b, p))
  }

  /** Since nothing in the loop changes `a`, `b` or `p`, it stops after its
      first pass exactly when the triangle is non-degenerate, and otherwise
      runs forever. */
  lemma {:induction false} AsWrittenLoopStopsIffNonDegenerate(a: Point, b: Point, p: Point, passes: nat)
    requires passes >= 1
    ensures StillLooping(a, b, p, passes) <==> IsDegenerate(Triangle(a, b, p))
  {
    if passes > 1 {
      AsWrittenLoopStopsIffNonDegenerate(a, b, p, passes - 1);
    }
  }

  /** A stream whose first apex lies on the line through the seed edge: the
      seed points are (0,0,0) and (0.01,0,0) and the apex (0.02,0,0), so the
      as-written loop in the generator's first growth step never ends. */
  lemma CollinearFirstApexHangs(rand: RandStream, passes: nat)
    requires rand(1) == 0 && rand(2) == 0 && rand(3) == 0
    requires rand(4) == 1 && rand(5) == 0 && rand(6) == 0
    requires rand(7) == 2 && rand(8) == 0 && rand(9) == 0
    ensures StillLooping(PointAt(rand, 1), PointAt(rand, 4), PointAt(rand, 7), passes)
  {
    var a, b, p := PointAt(rand, 1), PointAt(rand, 4), PointAt(rand, 7);
    assert a == Point(0.0, 0.0, 0.0) && b == Point(0.01, 0.0, 0.0) && p == Point(0.02, 0.0, 0.0);
    assert IsDegenerate(Triangle(a, b, p));
    if passes >= 1 {
      AsWrittenLoopStopsIffNonDegenerate(a, b, p, passes);
    }
  }

  /** An apex and the stream position after drawing it. */
  datatype Draw = Draw(apex: Point, next: nat)

  /** The intended degeneracy loop: keep the candidate apex `p` if it is not
      collinear with `a` and `b`, otherwise draw a new one from position
      `next`, at most `budget` more times. */
  function Redraw(rand: RandStream, a: Point, b: Point, p: Point, next: nat, budget: nat): (d: Option<Draw>)
    ensures d.Some? ==> !IsDegenerate(Triangle(a, b, d.value.apex))
    decreases budget
  {
    if !IsDegenerate(Triangle(a, b, p)) then Some(Draw(p, next))
    else if budget == 0 then None
    else Redraw(rand, a, b, PointAt(rand, next), next + 3, budget - 1)
  }

  /** Every one of the `count` draws starting at stream position `from`
      is collinear with `a` and `b`. */
  ghost predicate AllDegenerate(rand: RandStream, a: Point, b: Point, from: nat, count: nat)
    decreases count
  {
    count == 0
    || (IsDegenerate(Triangle(a, b, PointAt(rand, from))) && AllDegenerate(rand, a, b, from + 3, count - 1))
  }

  /** The corrected loop gives up exactly when the candidate and every one of
      the `budget` redraws are degenerate. */
  lemma {:induction false} RedrawFailsIffAllDegenerate(rand: RandStream, a: Point, b: Point, p: Point, next: nat, budget: nat)
    ensures Redraw(rand, a, b, p, next, budget).None?
            <==> IsDegenerate(Triangle(a, b, p)) && AllDegenerate(rand, a, b, next, budget)
    decreases budget
  {
    if IsDegenerate(Triangle(a, b, p)) && budget > 0 {
      RedrawFailsIffAllDegenerate(rand, a, b, PointAt(rand, next), next + 3, budget - 1);
    }
  }

  /** The corrected loop settles on the first good draw. When it keeps the
      candidate, nothing more is drawn; when it returns after `m` redraws,
      the apex is the m-th draw and the candidate and the `m - 1` draws
      before it were all degenerate. */
  lemma {:induction false} RedrawTakesFirstGoodDraw(rand: RandStream, a: Point, b: Point, p: Point, next: nat, budget: nat)
    returns (m: nat)
    requires Redraw(rand, a, b, p, next, budget).Some?
    ensures var d := Redraw(rand, a, b, p, next, budget).value;
            && m <= budget
            && d.next == next + 3 * m
            && (m == 0 ==> d.apex == p)
            && (m > 0 ==> && IsDegenerate(Triangle(a, b, p))
                          && AllDegenerate(rand, a, b, next, m - 1)
                          && d.apex == PointAt(rand, next + 3 * (m - 1)))
    decreases budget, 1
  {
    if IsDegenerate(Triangle(a, b, p)) {
      m := RedrawAfterDegenerate(rand, a, b, p, next, budget);
    } else {
      m := 0;
    }
  }

  /** The redrawing case of RedrawTakesFirstGoodDraw. */
  lemma {:induction false} RedrawAfterDegenerate(rand: RandStream, a: Point, b: Point, p: Point, next: nat, budget: nat)
    returns (m: nat)
    requires IsDegenerate(Triangle(a, b, p)) && Redraw(rand, a, b, p, next, budget).Some?
    ensures var d := Redraw(rand, a, b, p, next, budget).value;
            && 0 < m <= budget
            && d.next == next + 3 * m
            && AllDegenerate(rand, a, b, next, m - 1)
            && d.apex == PointAt(rand, next + 3 * (m - 1))
    decreases budget, 0
  {
    var q := PointAt(rand, next);
    assert budget > 0 && Redraw(rand, a, b, p, next, budget) == Redraw(rand, a, b, q, next + 3, budget - 1);
    var m' := RedrawTakesFirstGoodDraw(rand, a, b, q, next + 3, budget - 1);
    m := m' + 1;
    assert m' > 0 ==> IsDegenerate(Triangle(a, b, q)) && AllDegenerate(rand, a, b, next + 3, m' - 1);
  }

  /** One pass of the redraw loop: a degenerate candidate with budget left
      is replaced by the next drawn point. */
  lemma RedrawStep(rand: RandStream, a: Point, b: Point, cursor: nat,
                   p: Point, next: nat, budget: nat, p': Point, next': nat)
    requires FirstApex(rand, a, b, cursor, MaxRedraws) == Redraw(rand, a, b, p, next, budget)
    requires IsDegenerate(Triangle(a, b, p)) && budget > 0
    requires p' == PointAt(rand, next) && next' == next + 3
    ensures FirstApex(rand, a, b, cursor, MaxRedraws) == Redraw(rand, a, b, p', next', budget - 1)
  {
    assert Redraw(rand, a, b, p, next, budget) == Redraw(rand, a, b, PointAt(rand, next), next + 3, budget - 1);
  }

  /** The apex the intended growth step settles on, drawing first at
      `cursor`. */
  function FirstApex(rand: RandStream, a: Point, b: Point, cursor: nat, budget: nat): (d: Option<Draw>)
    ensures d.Some? ==> !IsDegenerate(Triangle(a, b, d.value.apex))
  {
    Redraw(rand, a, b, PointAt(rand, cursor), cursor + 3, budget)
  }

  /** A growth step fails exactly when all of its budget + 1 draws are
      collinear with the edge. */
  lemma FirstApexFailsIffAllDegenerate(rand: RandStream, a: Point, b: Point, cursor: nat, budget: nat)
    ensures FirstApex(rand, a, b, cursor, budget).None? <==> AllDegenerate(rand, a, b, cursor, budget + 1)
  {
    RedrawFailsIffAllDegenerate(rand, a, b, PointAt(rand, cursor), cursor + 3, budget);
  }

  /** A successful growth step takes the first non-degenerate draw: its apex
      is draw number m (counting from 0 at `cursor`), every earlier draw was
      degenerate, and the stream resumes right after it. */
  lemma FirstApexIsFirstGoodDraw(rand: RandStream, a: Point, b: Point, cursor: nat, budget: nat)
    returns (m: nat)
    requires FirstApex(rand, a, b, cursor, budget).Some?
    ensures var d := FirstApex(rand, a, b, cursor, budget).value;
            && m <= budget
            && d.apex == PointAt(rand, cursor + 3 * m)
            && d.next == cursor + 3 * (m + 1)
            && !IsDegenerate(Triangle(a, b, d.apex))
            && AllDegenerate(rand, a, b, cursor, m)
  {
    var m' := RedrawTakesFirstGoodDraw(rand, a, b, PointAt(rand, cursor), cursor + 3, budget);
    m := m';
  }

  /** Wherever the as-written loop terminates, the intended one draws the
      same apex and consumes the same values. */
  lemma IntendedAgreesWhereAsWrittenStops(rand: RandStream, a: Point, b: Point, cursor: nat, budget: nat)
    requires !StillLooping(a, b, PointAt(rand, cursor), 1)
    ensures FirstApex(rand, a, b, cursor, budget) == Some(Draw(PointAt(rand, cursor), cursor + 3))
  {
    AsWrittenLoopStopsIffNonDegenerate(a, b, PointAt(rand, cursor), 1);
  }

  /** The triangles and the edge history of a frontier growth: edge 0 is the
      seed; triangle k is built off edge k/2 (the edge at the front of the
      queue when it was grown) and its two new edges, from each end of that
      edge to the apex, were pushed as edges 2k+1 and 2k+2. */
  ghost predicate GrownFrom(tris: seq<Triangle>, history: seq<Edge>)
  {
    && |history| == 1 + 2 * |tris|
    && forall k :: 0 <= k < |tris| ==>
         && tris[k] == Triangle(history[k / 2].first, history[k / 2].second, tris[k].c)
         && history[2 * k + 1] == Edge(history[k / 2].first, tris[k].c)
         && history[2 * k + 2] == Edge(history[k / 2].second, tris[k].c)
  }

  /** Growing one more triangle off the edge at the front of the queue (edge
      |tris|/2, the front while triangles 2i and 2i+1 are grown) and pushing
      its two new edges keeps the relation. */
  lemma GrowPreservesGrownFrom(tris: seq<Triangle>, history: seq<Edge>, apex: Point)
    requires GrownFrom(tris, history)
    ensures var e := history[|tris| / 2];
            GrownFrom(tris + [Triangle(e.first, e.second, apex)], history + [Edge(e.first, apex), Edge(e.second, apex)])
  {
    var e := history[|tris| / 2];
    var tris', history' := tris + [Triangle(e.first, e.second, apex)], history + [Edge(e.first, apex), Edge(e.second, apex)];
    forall k | 0 <= k < |tris'|
      ensures && tris'[k] == Triangle(history'[k / 2].first, history'[k / 2].second, tris'[k].c)
              && history'[2 * k + 1] == Edge(history'[k / 2].first, tris'[k].c)
              && history'[2 * k + 2] == Edge(history'[k / 2].second, tris'[k].c)
    {
      if k < |tris| {
        assert tris'[k] == tris[k];
      }
    }
  }

  /** No triangle of the list is degenerate. */
  ghost predicate NonDegenerate(tris: seq<Triangle>)
  {
    forall k :: 0 <= k < |tris| ==> !IsDegenerate(tris[k])
  }

  /** The corrected growth step off edge `e`, drawing from stream position
      `at`, takes `apex` and leaves the stream at `next`. */
  ghost predicate DrewAt(rand: RandStream, e: Edge, at: nat, apex: Point, next: nat)
  {
    FirstApex(rand, e.first, e.second, at, MaxRedraws) == Some(Draw(apex, next))
  }

  /** Ties every apex to the stream: the growth step of triangle k drew from
      positions[k] and left the stream at positions[k + 1]. */
  ghost predicate DrawnFrom(rand: RandStream, tris: seq<Triangle>, positions: seq<nat>)
  {
    && |positions| == |tris| + 1
    && forall k :: 0 <= k < |tris| ==>
         DrewAt(rand, Edge(tris[k].a, tris[k].b), positions[k], tris[k].c, positions[k + 1])
  }

  /** A growth step that draws from where the last one left the stream
      extends the record. */
  lemma DrawnFromGrows(rand: RandStream, tris: seq<Triangle>, positions: seq<nat>, e: Edge, apex: Point, next: nat)
    requires DrawnFrom(rand, tris, positions) && DrewAt(rand, e, positions[|tris|], apex, next)
    ensures DrawnFrom(rand, tris + [Triangle(e.first, e.second, apex)], positions + [next])
  {
    var tris', positions' := tris + [Triangle(e.first, e.second, apex)], positions + [next];
    forall k | 0 <= k < |tris'|
      ensures DrewAt(rand, Edge(tris'[k].a, tris'[k].b), positions'[k], tris'[k].c, positions'[k + 1])
    {
      if k < |tris| {
        assert tris'[k] == tris[k] && positions'[k] == positions[k] && positions'[k + 1] == positions[k + 1];
      }
    }
  }

  /** Pushing onto the back of a queue that is the suffix of the pushed
      edges from index i keeps it that suffix. */
  lemma QueueStaysSuffix(history: seq<Edge>, edges: seq<Edge>, edges': seq<Edge>, i: nat)
    requires i <= |history| && edges == history[i..]
    requires |edges'| >= |edges| && edges'[..|edges|] == edges
    ensures edges' == (history + edges'[|edges|..])[i..]
  {
    assert edges' == edges + edges'[|edges|..];
  }

  /** The earlier triangle whose edge triangle k was grown off. */
  function Parent(k: nat): (j: nat)
    requires k >= 1
    ensures j < k
  {
    if k / 2 == 0 then 0 else (k / 2 - 1) / 2
  }

  function Vertices(t: Triangle): (vs: set<Point>)
  {
    {t.a, t.b, t.c}
  }

  /** The generated mesh is edge-connected: every triangle after the first
      shares two vertices (an edge) with an earlier triangle. */
  lemma SharesEdgeWithParent(tris: seq<Triangle>, history: seq<Edge>, k: nat)
    requires GrownFrom(tris, history)
    requires 1 <= k < |tris|
    ensures tris[k].a in Vertices(tris[Parent(k)]) && tris[k].b in Vertices(tris[Parent(k)])
  {
    var m := k / 2;
    if m == 0 {
      assert tris[0] == Triangle(history[0].first, history[0].second, tris[0].c);
    } else {
      var j := (m - 1) / 2;
      assert j < |tris|;
      assert tris[j] == Triangle(history[j / 2].first, history[j / 2].second, tris[j].c);
      assert m == 2 * j + 1 || m == 2 * j + 2;
    }
  }

  /** The degeneracy loop of a growth step, with the apex redrawn on each
      pass: draws an apex, and while Triangle(a, b, p) is degenerate draws
      again, at most MaxRedraws more times. */
  method DrawApex(a: Point, b: Point, rand: RandStream, cursor: nat)
    returns (p: Point, t: Triangle, cursor': nat, found: bool)
    ensures found == FirstApex(rand, a, b, cursor, MaxRedraws).Some?
    ensures found ==> && t == Triangle(a, b, p) && !IsDegenerate(t)
                      && FirstApex(rand, a, b, cursor, MaxRedraws) == Some(Draw(p, cursor'))
    ensures !found <==> AllDegenerate(rand, a, b, cursor, MaxRedraws + 1)
    ensures cursor' > cursor
  {
    p, cursor' := RandomPoint(rand, cursor);
    t := Triangle(a, b, p);
    var redrawsLeft: nat := MaxRedraws;
    while IsDegenerate(t) && redrawsLeft > 0
      invariant cursor' >= cursor + 3 && t == Triangle(a, b, p)
      invariant FirstApex(rand, a, b, cursor, MaxRedraws) == Redraw(rand, a, b, p, cursor', redrawsLeft)
    {
      ghost var p0, c0 := p, cursor';
      p, cursor' := RandomPoint(rand, cursor');
      t := Triangle(a, b, p);
      redrawsLeft := redrawsLeft - 1;
      RedrawStep(rand, a, b, cursor, p0, c0, redrawsLeft + 1, p, cursor');
    }
    found := !IsDegenerate(t);
    FirstApexFailsIffAllDegenerate(rand, a, b, cursor, MaxRedraws);
  }

  /** A growth step that gave up: the edge it grew off and the stream
      position of its first draw. */
  datatype StepFailure = StepFailure(edge: Edge, at: nat)

  /** Every draw the step was allowed was collinear with its edge. */
  ghost predicate StepFails(rand: RandStream, f: StepFailure)
  {
    AllDegenerate(rand, f.edge.first, f.edge.second, f.at, MaxRedraws + 1)
  }

  /** The triangle list, allocated once by the mesh and shared with every
      query engine built over it. */
  class TriangleList {
    var items: seq<Triangle>

    constructor ()
      ensures items == []
    {
      items := [];
    }

    method PushBack(t: Triangle)
      modifies this
      ensures items == old(items) + [t]
    {
      items := items + [t];
    }
  }

  class TriangleMesh {
    const triangles: TriangleList
    /** The vertex target drawn by the constructor. */
    const numVertices: int
    /** False when some growth step ran out of redraws. */
    const complete: bool
    /** Every edge ever pushed onto the frontier, in push order. */
    ghost const edgeHistory: seq<Edge>
    /** The frontier queue when construction ended. */
    ghost const frontier: seq<Edge>
    /** The growth step that gave up, when one did. */
    ghost const failure: Option<StepFailure>
    /** Where each growth step started drawing, and where the stream stood
        after the last triangle. */
    ghost const drawPositions: seq<nat>

    /** The mesh's own triangle list, not a copy. */
    function GetTriangles(): (l: TriangleList)
      ensures l == triangles
    {
      triangles
    }

    /** Grows one triangle off `currentEdge`: draws an apex `p` (redrawing
        while degenerate), pushes the edges (a, p) and (b, p) onto the back of
        the queue and appends Triangle(a, b, p) to the list. Gives up, changing
        nothing, when every allowed draw is degenerate. */
    static method AddTriangleAndEdges(triangles: TriangleList, edges: seq<Edge>, currentEdge: Edge,
                                      rand: RandStream, cursor: nat)
      returns (edges': seq<Edge>, cursor': nat, apex: Point, added: bool)
      modifies triangles
      ensures added == FirstApex(rand, currentEdge.first, currentEdge.second, cursor, MaxRedraws).Some?
      ensures added ==> FirstApex(rand, currentEdge.first, currentEdge.second, cursor, MaxRedraws) == Some(Draw(apex, cursor'))
      ensures added ==>
                && !IsDegenerate(Triangle(currentEdge.first, currentEdge.second, apex))
                && edges' == edges + [Edge(currentEdge.first, apex), Edge(currentEdge.second, apex)]
                && triangles.items == old(triangles.items) + [Triangle(currentEdge.first, currentEdge.second, apex)]
      ensures !added ==> edges' == edges && triangles.items == old(triangles.items)
      ensures !added <==> AllDegenerate(rand, currentEdge.first, currentEdge.second, cursor, MaxRedraws + 1)
      ensures cursor' > cursor
    {
      var a := currentEdge.first;
      var b := currentEdge.second;
      var t;
      apex, t, cursor', added := DrawApex(a, b, rand, cursor);
      if !added {
        return edges, cursor', apex, false;
      }
      edges' := edges + [Edge(a, apex)];
      edges' := edges' + [Edge(b, apex)];
      triangles.PushBack(t);
    }

    /** One growth step of the construction loop, with the ghost record of
        every pushed edge kept in step: `history` grows by the two edges the
        step pushes onto the queue. */
    static method GrowOnce(list: TriangleList, edges: seq<Edge>, ghost history: seq<Edge>, ghost positions: seq<nat>,
                           currentEdge: Edge, rand: RandStream, cursor: nat)
      returns (edges': seq<Edge>, ghost history': seq<Edge>, ghost positions': seq<nat>,
               cursor': nat, apex: Point, added: bool)
      modifies list
      requires GrownFrom(list.items, history) && history[|list.items| / 2] == currentEdge
      requires NonDegenerate(list.items)
      requires DrawnFrom(rand, list.items, positions) && positions[|list.items|] == cursor
      ensures DrawnFrom(rand, list.items, positions')
      ensures added ==> DrewAt(rand, currentEdge, cursor, apex, cursor') && positions' == positions + [cursor']
      ensures !added ==> positions' == positions
      ensures cursor' > cursor
      ensures |edges'| >= |edges| && edges'[..|edges|] == edges
      ensures GrownFrom(list.items, history') && history' == history + edges'[|edges|..]
      ensures NonDegenerate(list.items)
      ensures added ==> && list.items == old(list.items) + [Triangle(currentEdge.first, currentEdge.second, apex)]
                        && |edges'| == |edges| + 2
      ensures !added ==> list.items == old(list.items) && edges' == edges
      ensures !added <==> StepFails(rand, StepFailure(currentEdge, cursor))
    {
      ghost var before := list.items;
      edges', cursor', apex, added := AddTriangleAndEdges(list, edges, currentEdge, rand, cursor);
      if !added {
        history', positions' := history, positions;
        return;
      }
      assert edges'[|edges|..] == [Edge(currentEdge.first, apex), Edge(currentEdge.second, apex)];
      GrowPreservesGrownFrom(before, history, apex);
      history' := history + edges'[|edges|..];
      DrawnFromGrows(rand, before, positions, currentEdge, apex, cursor');
      positions' := positions + [cursor'];
    }

    /** One pass of the construction loop: takes the front edge, grows two
        triangles off it and pops it. `history` is every edge pushed so far,
        `positions` where every growth step started drawing, and `i` the
        number of passes already made, so the queue is history[i..]. */
    static method GrowOffFront(list: TriangleList, edges: seq<Edge>, ghost history: seq<Edge>, ghost positions: seq<nat>,
                               ghost i: nat, rand: RandStream, cursor: nat)
      returns (edges': seq<Edge>, ghost history': seq<Edge>, ghost positions': seq<nat>,
               cursor': nat, ok: bool, ghost failure: Option<StepFailure>)
      modifies list
      requires GrownFrom(list.items, history)
      requires |list.items| == 2 * i && i < |history| && edges == history[i..]
      requires NonDegenerate(list.items)
      requires DrawnFrom(rand, list.items, positions) && positions[2 * i] == cursor
      ensures |list.items| >= 2 * i && list.items[..2 * i] == old(list.items)
      ensures GrownFrom(list.items, history') && |history'| >= |history| && history'[..|history|] == history
      ensures NonDegenerate(list.items)
      ensures DrawnFrom(rand, list.items, positions') && positions'[..2 * i + 1] == positions
      ensures cursor' > cursor
      ensures ok ==> |list.items| == 2 * (i + 1) && i + 1 < |history'| && edges' == history'[i + 1..]
      ensures ok ==> && Edge(list.items[2 * i].a, list.items[2 * i].b) == edges[0]
                     && Edge(list.items[2 * i + 1].a, list.items[2 * i + 1].b) == edges[0]
                     && positions'[2 * i + 2] == cursor'
      ensures !ok ==> |list.items| <= 2 * i + 1
      ensures ok <==> failure.None?
      ensures failure.Some? ==> && failure.value.edge == history'[|list.items| / 2]
                                && failure.value.at == positions'[|list.items|]
                                && StepFails(rand, failure.value)
    {
      // front(): the queue holds 1 + 3 * i edges, so it is not empty
      var currentEdge := edges[0];
      var apex;
      edges', history', positions', cursor', apex, ok := GrowOnce(list, edges, history, positions, currentEdge, rand, cursor);
      if !ok {
        failure := Some(StepFailure(currentEdge, cursor));
      } else {
        QueueStaysSuffix(history, edges, edges', i);
        ghost var mid := list.items;
        ghost var history1 := history';
        edges', history', positions', cursor', ok, failure :=
          GrowSecondAndPop(list, edges', history', positions', i, currentEdge, rand, cursor');
        assert list.items[..2 * i] == mid[..2 * i];
        assert history'[..|history|] == history1[..|history|];
      }
    }

    /** The rest of a pass once its first triangle is grown: grows the second
        triangle off the same front edge and pops that edge. */
    static method GrowSecondAndPop(list: TriangleList, edges: seq<Edge>, ghost history: seq<Edge>, ghost positions: seq<nat>,
                                   ghost i: nat, currentEdge: Edge, rand: RandStream, cursor: nat)
      returns (edges': seq<Edge>, ghost history': seq<Edge>, ghost positions': seq<nat>,
               cursor': nat, ok: bool, ghost failure: Option<StepFailure>)
      modifies list
      requires GrownFrom(list.items, history)
      requires |list.items| == 2 * i + 1 && i < |history| && edges == history[i..] && currentEdge == edges[0]
      requires NonDegenerate(list.items)
      requires DrawnFrom(rand, list.items, positions) && positions[2 * i + 1] == cursor
      ensures |list.items| >= 2 * i + 1 && list.items[..2 * i + 1] == old(list.items)
      ensures GrownFrom(list.items, history') && |history'| >= |history| && history'[..|history|] == history
      ensures NonDegenerate(list.items)
      ensures DrawnFrom(rand, list.items, positions') && positions'[..2 * i + 2] == positions
      ensures cursor' > cursor
      ensures ok ==> |list.items| == 2 * (i + 1) && i + 1 < |history'| && edges' == history'[i + 1..]
      ensures ok ==> && Edge(list.items[2 * i + 1].a, list.items[2 * i + 1].b) == currentEdge
                     && positions'[2 * i + 2] == cursor'
      ensures !ok ==> list.items == old(list.items)
      ensures ok <==> failure.None?
      ensures failure.Some? ==> && failure.value.edge == history'[|list.items| / 2]
                                && failure.value.at == positions'[|list.items|]
                                && StepFails(rand, failure.value)
    {
      var apex;
      edges', history', positions', cursor', apex, ok := GrowOnce(list, edges, history, positions, currentEdge, rand, cursor);
      if !ok {
        failure := Some(StepFailure(currentEdge, cursor));
      } else {
        failure := None;
        QueueStaysSuffix(history, edges, edges', i);
        // pop(): the edge removed is currentEdge, since pushes went to the back
        edges' := edges'[1..];
      }
    }

    /** Seeds the frontier with one edge between two drawn points, then
        numVertices - 2 times takes the front edge, grows two triangles off it
        and pops it. */
    constructor (rand: RandStream)
      ensures fresh(triangles)
      ensures numVertices == NumVertices(rand(0))
      ensures GrownFrom(triangles.items, edgeHistory)
      ensures edgeHistory[0] == Edge(PointAt(rand, 1), PointAt(rand, 4))
      ensures NonDegenerate(triangles.items)
      ensures complete ==> && |triangles.items| == 2 * (numVertices - 2)
                           && frontier == edgeHistory[numVertices - 2..]
                           && |frontier| == 1 + 3 * (numVertices - 2)
      ensures !complete ==> |triangles.items| < 2 * (numVertices - 2)
      ensures complete <==> failure.None?
      ensures DrawnFrom(rand, triangles.items, drawPositions) && drawPositions[0] == 7
      ensures failure.Some? ==> && failure.value.edge == edgeHistory[|triangles.items| / 2]
                                && failure.value.at == drawPositions[|triangles.items|]
                                && StepFails(rand, failure.value)
    {
      var list := new TriangleList();
      var cursor: nat := 0;
      var n := NumVertices(rand(cursor));
      cursor := cursor + 1;
      var seed := new Point[2];
      for i := 0 to 2
        invariant list.items == []
        invariant cursor == 1 + 3 * i
        invariant forall j :: 0 <= j < i ==> seed[j] == PointAt(rand, 1 + 3 * j)
      {
        seed[i], cursor := RandomPoint(rand, cursor);
      }
      assert seed[0] == PointAt(rand, 1) && seed[1] == PointAt(rand, 4);
      var edges := [Edge(seed[0], seed[1])];
      ghost var history := edges;
      var ok := true;
      ghost var stall: Option<StepFailure> := None;
      ghost var positions: seq<nat> := [cursor];
      var i := 0;
      while i < n - 2 && ok
        invariant 0 <= i <= n - 2
        invariant GrownFrom(list.items, history)
        invariant history[0] == Edge(PointAt(rand, 1), PointAt(rand, 4))
        invariant NonDegenerate(list.items)
        invariant ok ==> |list.items| == 2 * i && i < |history| && edges == history[i..]
        invariant !ok ==> |list.items| < 2 * (n - 2)
        invariant ok <==> stall.None?
        invariant DrawnFrom(rand, list.items, positions) && positions[0] == 7
        invariant ok ==> positions[|list.items|] == cursor
        invariant stall.Some? ==> && stall.value.edge == history[|list.items| / 2]
                                  && stall.value.at == positions[|list.items|]
                                  && StepFails(rand, stall.value)
        decreases n - 2 - i, if ok then 1 else 0
      {
        edges, history, positions, cursor, ok, stall := GrowOffFront(list, edges, history, positions, i, rand, cursor);
        if ok {
          i := i + 1;
        }
      }
      triangles := list;
      numVertices := n;
      complete := ok;
      failure := stall;
      drawPositions := positions;
      edgeHistory := history;
      frontier := edges;
    }
  }
}
