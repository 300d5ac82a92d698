/**
 * The memoised exhaustive closest-point query over a triangle mesh.
 *
 * On a query the engine first looks the query point up in its cache; on a
 * miss it scans every triangle of the mesh in stored order, asks the
 * per-triangle closest-point functor for that triangle's nearest point, keeps
 * the best candidate under a strict `<` on squared distance (so the first
 * triangle attaining the minimum wins), records the answer in the cache and
 * returns it.
 */
module ClosestPoint {
  import opened Common
  import opened Mesh

  datatype QueryError = MeshEmpty

  datatype Result<T> = Ok(value: T) | Err(error: QueryError)

  /** The squared distance from `q` to the point the functor picks on `t`. */
  function TriangleDistance(q: Point, t: Triangle, closest: ClosestPointOracle): (d: real)
    ensures d >= 0.0
  {
    SquaredDistance(q, closest(q, t))
  }

  /** Index `k` holds a minimum-distance triangle of `ts`, and no triangle
      before it attains that minimum. */
  ghost predicate IsFirstMinimum(q: Point, ts: seq<Triangle>, closest: ClosestPointOracle, k: int)
  {
    && 0 <= k < |ts|
    && (forall j :: 0 <= j < |ts| ==>
          TriangleDistance(q, ts[k], closest) <= TriangleDistance(q, ts[j], closest))
    && (forall j :: 0 <= j < k ==>
          TriangleDistance(q, ts[k], closest) < TriangleDistance(q, ts[j], closest))
  }

  /** The index of the triangle the scan settles on: the running best is
      replaced only by a strictly closer candidate, starting from "no best
      yet". Defined over the prefix so that it follows the loop step by
      step. */
  function BestIndex(q: Point, ts: seq<Triangle>, closest: ClosestPointOracle): (k: Option<nat>)
    ensures k.None? <==> ts == []
    ensures k.Some? ==> IsFirstMinimum(q, ts, closest, k.value)
    decreases |ts|
  {
    if ts == [] then None
    else
      var init := ts[..|ts| - 1];
      var last := |ts| - 1;
      var prev := BestIndex(q, init, closest);
      assert forall j :: 0 <= j < last ==> init[j] == ts[j];
      if prev.None? || TriangleDistance(q, ts[last], closest) < TriangleDistance(q, ts[prev.value], closest)
      then Some(last)
      else prev
  }

  /** What an uncached query answers: the functor's point on the first
      closest triangle, or `MeshEmpty` when there is no triangle at all. */
  function Scan(q: Point, ts: seq<Triangle>, closest: ClosestPointOracle): (r: Result<Point>)
    ensures r.Err? <==> ts == []
    ensures r.Ok? ==> exists k :: IsFirstMinimum(q, ts, closest, k) && r.value == closest(q, ts[k])
  {
    match BestIndex(q, ts, closest)
    case None => Err(MeshEmpty)
    case Some(k) => Ok(closest(q, ts[k]))
  }

  /** No two indices are both first minima: the scan's answer is determined
      by the triangle list, its order and the functor. */
  lemma FirstMinimumIsUnique(q: Point, ts: seq<Triangle>, closest: ClosestPointOracle, k1: int, k2: int)
    requires IsFirstMinimum(q, ts, closest, k1) && IsFirstMinimum(q, ts, closest, k2)
    ensures k1 == k2
  {
    var d1, d2 := TriangleDistance(q, ts[k1], closest), TriangleDistance(q, ts[k2], closest);
    assert d1 <= d2 && d2 <= d1;
  }

  /** The scan's answer, characterised without reference to the loop: it is
      the functor's point on the triangle at the first minimum index, and
      only there. */
  lemma ScanIsFirstMinimum(q: Point, ts: seq<Triangle>, closest: ClosestPointOracle, k: int)
    requires 0 <= k < |ts|
    ensures IsFirstMinimum(q, ts, closest, k) ==> Scan(q, ts, closest) == Ok(closest(q, ts[k]))
  {
    if IsFirstMinimum(q, ts, closest, k) {
      var b := BestIndex(q, ts, closest);
      FirstMinimumIsUnique(q, ts, closest, k, b.value);
    }
  }

  /** Global minimality: the returned point is no farther from the query than
      the functor's point on any triangle of the mesh, and it is the
      functor's point on one of them. */
  lemma ScanIsGlobalMinimum(q: Point, ts: seq<Triangle>, closest: ClosestPointOracle)
    requires ts != []
    ensures Scan(q, ts, closest).Ok?
    ensures forall t :: t in ts ==>
              SquaredDistance(q, Scan(q, ts, closest).value) <= TriangleDistance(q, t, closest)
    ensures exists t :: t in ts && Scan(q, ts, closest).value == closest(q, t)
  {
    var k := BestIndex(q, ts, closest).value;
    assert Scan(q, ts, closest).value == closest(q, ts[k]);
    forall t | t in ts
      ensures SquaredDistance(q, Scan(q, ts, closest).value) <= TriangleDistance(q, t, closest)
    {
      var j :| 0 <= j < |ts| && ts[j] == t;
    }
    assert ts[k] in ts;
  }

  /** Tie-break: of two equidistant triangles the one stored first wins. */
  lemma FirstOfEqualDistanceWins(q: Point, t1: Triangle, t2: Triangle, closest: ClosestPointOracle)
    requires TriangleDistance(q, t1, closest) == TriangleDistance(q, t2, closest)
    ensures Scan(q, [t1, t2], closest) == Ok(closest(q, t1))
  {
    assert IsFirstMinimum(q, [t1, t2], closest, 0);
    ScanIsFirstMinimum(q, [t1, t2], closest, 0);
  }

  /** Reordering the triangles can change which point is returned (only
      through ties) but never its distance from the query. */
  lemma ScanDistanceIsOrderIndependent(q: Point, ts: seq<Triangle>, us: seq<Triangle>, closest: ClosestPointOracle)
    requires ts != [] && multiset(ts) == multiset(us)
    ensures Scan(q, ts, closest).Ok? && Scan(q, us, closest).Ok?
    ensures SquaredDistance(q, Scan(q, ts, closest).value) == SquaredDistance(q, Scan(q, us, closest).value)
  {
    var k1 := BestIndex(q, ts, closest).value;
    assert ts[k1] in multiset(us);
    assert us != [];
    var k2 := BestIndex(q, us, closest).value;
    assert us[k2] in multiset(ts);
    var j1 :| 0 <= j1 < |us| && us[j1] == ts[k1];
    var j2 :| 0 <= j2 < |ts| && ts[j2] == us[k2];
  }

  /** The cache agrees with a fresh scan on every key it holds. */
  ghost predicate CacheConsistent(ts: seq<Triangle>, closest: ClosestPointOracle, cache: map<Point, Point>)
  {
    forall p :: p in cache ==> Scan(p, ts, closest) == Ok(cache[p])
  }

  /** The outcome of one query: what it returns and the cache it leaves. */
  datatype Answer = Answer(result: Result<Point>, cache: map<Point, Point>)

  /** One query against a cache, as a function of the triangle list, the
      functor, the cache before the query and the query point. */
  function Lookup(ts: seq<Triangle>, closest: ClosestPointOracle, cache: map<Point, Point>, q: Point): (a: Answer)
    ensures q in cache ==> a == Answer(Ok(cache[q]), cache)
    ensures a.cache.Keys == if a.result.Ok? then cache.Keys + {q} else cache.Keys
    ensures forall p :: p in cache ==> p in a.cache && a.cache[p] == cache[p]
    ensures a.result.Ok? ==> a.cache[q] == a.result.value
    ensures CacheConsistent(ts, closest, cache) ==>
              a.result == Scan(q, ts, closest) && CacheConsistent(ts, closest, a.cache)
  {
    if q in cache then Answer(Ok(cache[q]), cache)
    else
      match Scan(q, ts, closest)
      case Ok(p) => Answer(Ok(p), cache[q := p])
      case Err(e) => Answer(Err(e), cache)
  }

  /** Asking the same question twice gives the same answer and leaves the
      cache exactly as the first call left it: the cache does not grow on
      the second call. */
  lemma RepeatedLookupIsStable(ts: seq<Triangle>, closest: ClosestPointOracle, cache: map<Point, Point>, q: Point)
    ensures Lookup(ts, closest, Lookup(ts, closest, cache, q).cache, q) == Lookup(ts, closest, cache, q)
    ensures |Lookup(ts, closest, cache, q).cache| <= |cache| + 1
  {
    var a := Lookup(ts, closest, cache, q);
    if q !in cache && a.result.Ok? {
      assert a.cache.Keys == cache.Keys + {q};
    }
  }

  /** The brute-force scan, one triangle at a time in stored order, keeping
      the running best under a strict comparison. `examined` records each
      triangle as the functor is asked for its closest point. */
  method ScanTriangles(q: Point, triangles: seq<Triangle>, closest: ClosestPointOracle)
    returns (r: Result<Point>, ghost examined: seq<Triangle>)
    ensures r == Scan(q, triangles, closest)
    ensures examined == triangles
  {
    var found := false;
    var closestPointSquaredDistance: real := 0.0;
    var closestPointOnMesh := Point(0.0, 0.0, 0.0);
    ghost var k: nat := 0;
    examined := [];
    for i := 0 to |triangles|
      invariant examined == triangles[..i]
      invariant found <==> i > 0
      invariant found ==> k < i && BestIndex(q, triangles[..i], closest) == Some(k)
      invariant found ==> closestPointOnMesh == closest(q, triangles[k])
      invariant found ==> closestPointSquaredDistance == TriangleDistance(q, triangles[k], closest)
    {
      var closestPointOnTriangle := closest(q, triangles[i]);
      examined := examined + [triangles[i]];
      var squaredDistance := SquaredDistance(q, closestPointOnTriangle);
      assert triangles[..i + 1][..i] == triangles[..i];
      if !found || squaredDistance < closestPointSquaredDistance {
        closestPointSquaredDistance := squaredDistance;
        closestPointOnMesh := closestPointOnTriangle;
        k := i;
      }
      found := true;
    }
    assert triangles[..|triangles|] == triangles;
    if found {
      r := Ok(closestPointOnMesh);
    } else {
      r := Err(MeshEmpty);
    }
  }

  /** The query engine. It refers to the mesh's own triangle list (it does
      not copy it) and owns its cache. */
  class ClosestPointQuery {
    const triangleMesh: TriangleMesh
    const triangles: TriangleList
    const closestPoint: ClosestPointOracle
    var cache: map<Point, Point>

    /** Every cached answer is what a fresh scan of the current triangle list
        would return. It holds as long as nobody changes that list. */
    ghost predicate Valid()
      reads this, triangles
      ensures Valid() && triangles.items == [] ==> cache == map[]
    {
      CacheConsistent(triangles.items, closestPoint, cache)
    }

    constructor (m: TriangleMesh, closestPoint: ClosestPointOracle)
      ensures triangleMesh == m && triangles == m.triangles
      ensures this.closestPoint == closestPoint
      ensures cache == map[]
      ensures Valid()
    {
      triangleMesh := m;
      triangles := m.GetTriangles();
      this.closestPoint := closestPoint;
      cache := map[];
    }

    /** The query operator. On a hit the cached point is returned and nothing
        is scanned; on a miss the whole list is scanned and the answer is
        cached. With a consistent cache the answer is always the one a fresh
        scan gives. */
    method Query(q: Point) returns (r: Result<Point>, ghost examined: seq<Triangle>)
      requires Valid()
      modifies this`cache
      ensures Valid()
      ensures Answer(r, cache) == Lookup(triangles.items, closestPoint, old(cache), q)
      ensures r == Scan(q, triangles.items, closestPoint)
      ensures examined == if q in old(cache) then [] else triangles.items
    {
      if q in cache {
        return Ok(cache[q]), [];
      }
      r, examined := ScanTriangles(q, triangles.items, closestPoint);
      if r.Ok? {
        cache := cache[q := r.value];
      }
    }

    /** Number of cached query points (a debugging aid). */
    function GetMapSize(): (n: nat)
      reads this
      ensures n == |cache.Keys|
    {
      |cache|
    }
  }

  /** Issuing the same query twice: both calls answer alike and the second
      leaves the cache size where the first left it. */
  method QueryTwice(engine: ClosestPointQuery, q: Point)
    returns (first: Result<Point>, second: Result<Point>, sizeAfterFirst: nat, sizeAfterSecond: nat)
    requires engine.Valid()
    modifies engine`cache
    ensures engine.Valid()
    ensures first == second == Scan(q, engine.triangles.items, engine.closestPoint)
    ensures sizeAfterSecond == sizeAfterFirst <= old(engine.GetMapSize()) + 1
  {
    ghost var examined;
    first, examined := engine.Query(q);
    sizeAfterFirst := engine.GetMapSize();
    second, examined := engine.Query(q);
    sizeAfterSecond := engine.GetMapSize();
  }

  /** The three-triangle mesh of the library example: A = (1,0,0),
      B = (0,1,0), C = (0,0,1), D = (0,0,0), triangles ABC, ABD, ADC in that
      order, queried from (2,2,2). Given the functor's points on each
      triangle (the centroid-like foot (1/3,1/3,1/3) on ABC and the
      mid-edges (1/2,1/2,0), (1/2,0,1/2) on the others), the query returns
      (1/3,1/3,1/3) at squared distance 25/3. */
  lemma LibraryExampleScenario(closest: ClosestPointOracle)
    requires closest(Point(2.0, 2.0, 2.0), Triangle(Point(1.0, 0.0, 0.0), Point(0.0, 1.0, 0.0), Point(0.0, 0.0, 1.0)))
             == Point(1.0 / 3.0, 1.0 / 3.0, 1.0 / 3.0)
    requires closest(Point(2.0, 2.0, 2.0), Triangle(Point(1.0, 0.0, 0.0), Point(0.0, 1.0, 0.0), Point(0.0, 0.0, 0.0)))
             == Point(0.5, 0.5, 0.0)
    requires closest(Point(2.0, 2.0, 2.0), Triangle(Point(1.0, 0.0, 0.0), Point(0.0, 0.0, 0.0), Point(0.0, 0.0, 1.0)))
             == Point(0.5, 0.0, 0.5)
    ensures
      var a, b, c, d := Point(1.0, 0.0, 0.0), Point(0.0, 1.0, 0.0), Point(0.0, 0.0, 1.0), Point(0.0, 0.0, 0.0);
      var q := Point(2.0, 2.0, 2.0);
      && Scan(q, [Triangle(a, b, c), Triangle(a, b, d), Triangle(a, d, c)], closest)
           == Ok(Point(1.0 / 3.0, 1.0 / 3.0, 1.0 / 3.0))
      && SquaredDistance(q, Point(1.0 / 3.0, 1.0 / 3.0, 1.0 / 3.0)) == 25.0 / 3.0
  {
    var a, b, c, d := Point(1.0, 0.0, 0.0), Point(0.0, 1.0, 0.0), Point(0.0, 0.0, 1.0), Point(0.0, 0.0, 0.0);
    var q := Point(2.0, 2.0, 2.0);
    var ts := [Triangle(a, b, c), Triangle(a, b, d), Triangle(a, d, c)];
    assert TriangleDistance(q, ts[0], closest) == 25.0 / 3.0;
    assert TriangleDistance(q, ts[1], closest) == 8.5;
    assert TriangleDistance(q, ts[2], closest) == 8.5;
    assert IsFirstMinimum(q, ts, closest, 0);
    ScanIsFirstMinimum(q, ts, closest, 0);
  }
}
