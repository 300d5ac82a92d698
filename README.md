# Closest point on a triangle mesh

This project models PointToMeshCGAL's two pieces of logic in Dafny.

The first is the memoised brute-force closest-point query (`ClosestPointQuery`). A query point is first looked up in a cache map. On a miss, every triangle of the mesh is scanned in list order, and the per-triangle closest point from the geometry library is kept under a strict `<` on squared distance. The answer is then stored in the cache and returned.

The second is the random mesh generator (`TriangleMesh`). It draws a vertex count and two seed points from `rand()` and puts the seed edge on a frontier queue. It then makes numVertices - 2 passes. Each pass takes the front edge, grows two triangles off it with freshly drawn apexes, and pops it; each new triangle's two new edges join the back of the queue.

The generator's comment (TriangleMesh.h:69) promises a mesh of vertexMin to vertexMax vertices, and the code does not keep that promise twice over. The drawn target `rand() % 5000 + 100` ranges over [100, 5099], and a complete mesh holds two seed points plus one apex per triangle, 2n - 2 points for a target of n (`VertexCountAsWritten`). The model follows the code.

The project has three modules:

- `Common` (`common.dfy`) holds the value types (`Point`, `Triangle`, `Edge`), squared distance, and the collinearity test.
- `Mesh` (`triangle_mesh.dfy`) holds the generator. The triangle list is the class `TriangleList`, the edge queue is a sequence threaded through the methods, and `rand()` after `srand(0)` is an input stream with an explicit cursor.
- `ClosestPoint` (`closest_point_query.dfy`) holds the query engine:
  - the class `ClosestPointQuery`, whose cache is a `map` field;
  - the scan method `ScanTriangles`, proved against the pure specification `Scan`;
  - the cache step `Lookup`, which specifies `Query`;
  - the class invariant `Valid`, which says every cached answer is what a fresh scan would give.

Where the code's behaviour is undefined or never ends, the model defines it:

- The engine's constructor does not reject an empty mesh, and neither does the model's. A query on an empty mesh returns and caches an uninitialised point in the code; in the model it fails with `MeshEmpty` and caches nothing.
- The generator's degeneracy loop never redraws its apex, so a collinear first draw hangs it (see Findings). The model's generator redraws, at most MaxRedraws times, and records the growth step that gave up when every allowed draw was collinear.

## Model

| member | source | states |
|---|---|---|
| Common.SquaredDistance | ClosestPointQuery.h:69 | the squared distance between two points is non-negative and is zero between a point and itself |
| Common.IsDegenerate | TriangleMesh.h:53-54 | a triangle with two equal vertices is degenerate (collinear) |
| Mesh.Coordinate | TriangleMesh.h:36 | a drawn coordinate lies in [0, 1000) |
| Mesh.CoordinateIsOnGrid | TriangleMesh.h:33-38 | every drawn coordinate is k/100 for an integer 0 <= k < 100000 |
| Mesh.RandomPoint | TriangleMesh.h:31-40 | the buffer loop yields the point of the next three `rand()` values, consumes exactly three values, and the point is on the grid |
| Mesh.NumVertices | TriangleMesh.h:71 | the vertex target lies in [vertexMin, vertexMin + vertexMax - 1] = [100, 5099] |
| Mesh.VertexCountAsWritten | TriangleMesh.h:69-94 | a complete mesh for target n holds 2n - 2 drawn points (the seeds and one apex per triangle), more than n, and the target itself can reach 5099, above vertexMax |
| Mesh.StillLooping | TriangleMesh.h:51-55 | the loop as written, pass by pass: after n >= 1 passes it is still running only if Triangle(a, b, p) is degenerate |
| Mesh.AsWrittenLoopStopsIffNonDegenerate | TriangleMesh.h:45-55 | the loop as written is still running after any n >= 1 passes exactly when Triangle(a, b, p) is degenerate: it stops after one test or never |
| Mesh.CollinearFirstApexHangs | TriangleMesh.h:48-55 | for a stream whose first apex is collinear with the seed edge, the as-written loop runs for every number of passes |
| Mesh.Redraw | TriangleMesh.h:48-55 | the corrected loop only ever returns an apex that is not collinear with the edge |
| Mesh.RedrawFailsIffAllDegenerate | TriangleMesh.h:48-55 | the corrected loop gives up exactly when the candidate and every one of its `budget` redraws are degenerate |
| Mesh.RedrawTakesFirstGoodDraw | TriangleMesh.h:48-55 | the corrected loop keeps the first good point: the candidate if it is good, otherwise redraw m <= budget, with the candidate and the m - 1 redraws before it degenerate and the stream resuming right after redraw m |
| Mesh.FirstApex | TriangleMesh.h:48-55 | the corrected growth step's apex is not collinear with the edge |
| Mesh.FirstApexFailsIffAllDegenerate | TriangleMesh.h:48-55 | a corrected growth step fails exactly when all of its MaxRedraws + 1 draws are collinear with the edge |
| Mesh.FirstApexIsFirstGoodDraw | TriangleMesh.h:48-55 | a successful corrected growth step takes draw m <= MaxRedraws, the first non-degenerate one; every earlier draw was degenerate and the stream resumes after it |
| Mesh.IntendedAgreesWhereAsWrittenStops | TriangleMesh.h:48-55 | wherever the as-written loop stops, the corrected one picks the same apex and consumes the same three values |
| Mesh.DrawApex | TriangleMesh.h:45-55 | the corrected redraw loop succeeds exactly when FirstApex does, and then yields its apex, its cursor and the non-degenerate Triangle(a, b, p); it fails exactly when all MaxRedraws + 1 draws are degenerate |
| Mesh.GrowPreservesGrownFrom | TriangleMesh.h:57-59 | growing a triangle off the front edge and pushing its edges (a, p) then (b, p) keeps the record tying triangle k to edge k/2 and to pushed edges 2k+1, 2k+2 |
| Mesh.DrawnFromGrows | TriangleMesh.h:85-93 | a growth step that draws from where the previous one left the stream extends the record tying every apex to its stream position |
| Mesh.SharesEdgeWithParent | TriangleMesh.h:85-94 | every triangle after the first contains both endpoints of an edge of an earlier triangle |
| Mesh.TriangleList.constructor | TriangleMesh.h:67 | a new triangle list is empty |
| Mesh.TriangleList.PushBack | TriangleMesh.h:59 | push_back appends one triangle at the end and changes nothing else |
| Mesh.TriangleMesh.GetTriangles | TriangleMesh.h:25-28 | the mesh hands out its own list, not a copy |
| Mesh.TriangleMesh.GrowSecondAndPop | TriangleMesh.h:91-93 | the second call of addTriangleAndEdges and the pop: it keeps the pass's first triangle, grows the second off the same front edge from where the first left the stream, and pops that edge; on failure nothing changes and the failing step is named |
| Mesh.TriangleMesh.AddTriangleAndEdges | TriangleMesh.h:43-61 | on success it appends exactly Triangle(a, b, p) to the list and pushes exactly (a, p) then (b, p) onto the back of the queue, with p the corrected loop's apex; it fails, changing nothing, exactly when every allowed draw is degenerate |
| Mesh.TriangleMesh.GrowOnce | TriangleMesh.h:90-91 | one call of addTriangleAndEdges appends Triangle(a, b, apex), where apex is the corrected loop's draw from the current stream position, and moves the stream past that draw; it keeps the growth record, the draw record, every triangle non-degenerate and earlier queue entries in place; it fails exactly when every allowed draw is degenerate |
| Mesh.TriangleMesh.GrowOffFront | TriangleMesh.h:87-93 | one loop pass keeps the earlier triangles and pushed edges, grows two triangles off the old front edge `edges[0]` from consecutive stream positions, and pops exactly that edge, so the queue stays the suffix of the pushed edges from index i + 1; it reports failure exactly when one of its two steps had only degenerate draws, and names that step's edge and stream position |
| Mesh.TriangleMesh.constructor | TriangleMesh.h:64-96 | the vertex target comes from the first `rand()` value and the seed edge from the next six; every triangle is non-degenerate, grown off the front edge, and its apex is the corrected loop's draw from where the previous step left the stream (the first from position 7); it is incomplete exactly when the next step, off the then-front edge and drawing from where the stream stood, had only degenerate draws, and otherwise holds exactly 2(n-2) triangles and 1 + 3(n-2) queued edges |
| ClosestPoint.BestIndex | ClosestPointQuery.h:61-77 | the running best under strict `<` is absent exactly for an empty list, and otherwise is the first index of minimum distance |
| ClosestPoint.Scan | ClosestPointQuery.h:58-79 | an uncached query fails exactly on an empty mesh, and otherwise answers with the functor's point on a first closest triangle |
| ClosestPoint.FirstMinimumIsUnique | ClosestPointQuery.h:70-74 | at most one index is a first minimum, so the strict comparison fixes the answer |
| ClosestPoint.ScanIsFirstMinimum | ClosestPointQuery.h:70-74 | whenever index k is a first minimum, the scan answers with triangle k's closest point |
| ClosestPoint.ScanIsGlobalMinimum | ClosestPointQuery.h:61-74 | on a non-empty mesh the answer is no farther from the query than any triangle's closest point, and is some triangle's closest point |
| ClosestPoint.FirstOfEqualDistanceWins | ClosestPointQuery.h:70-74 | of two triangles at equal distance, the earlier one's point is returned |
| ClosestPoint.ScanDistanceIsOrderIndependent | ClosestPointQuery.h:64-77 | reordering the triangle list can change which point is returned on ties, but not its distance |
| ClosestPoint.Lookup | ClosestPointQuery.h:41-79 | a hit returns the cached point and leaves the cache unchanged; a miss on a non-empty mesh adds exactly query -> answer and keeps every other entry; with a consistent cache the answer equals a fresh scan and the cache stays consistent |
| ClosestPoint.RepeatedLookupIsStable | ClosestPointQuery.h:41-45 | a second identical query returns the same answer and leaves the cache as the first left it, which grew by at most one entry |
| ClosestPoint.ScanTriangles | ClosestPointQuery.h:58-77 | the loop examines every triangle once, in list order, and returns exactly Scan's answer |
| ClosestPoint.ClosestPointQuery.Valid | ClosestPointQuery.h:41-79 | the class invariant: every cached answer is what a fresh scan would return, so an engine over an empty mesh has an empty cache |
| ClosestPoint.ClosestPointQuery.constructor | ClosestPointQuery.h:30-35 | a new engine refers to the mesh's own triangle list, has an empty cache and is consistent |
| ClosestPoint.ClosestPointQuery.Query | ClosestPointQuery.h:38-80 | the query is Lookup on the old cache: a hit examines no triangle, a miss examines the whole list; the answer is a fresh scan's and the cache stays consistent |
| ClosestPoint.ClosestPointQuery.GetMapSize | ClosestPointQuery.h:17-21 | the map size is the number of cached query points |
| ClosestPoint.QueryTwice | ClosestPointQuery.h:41-45 | two identical queries answer alike, and the map size after the second equals the size after the first, which is at most one more than before |
| ClosestPoint.LibraryExampleScenario | dist_comp.cpp:112-135 | on triangles ABC, ABD, ADC queried from (2,2,2), given the functor's points on each triangle, the answer is (1/3,1/3,1/3) at squared distance 25/3 |

## Left out

- The geometry library's per-triangle closest-point functor is a parameter (`ClosestPointOracle`), since its algorithm is not part of this code.
- Squared distance and the degeneracy test are the standard exact formulas: a sum of squared coordinate differences, and a vanishing cross product.
- The library's lexicographic point comparator is datatype equality.
- Coordinates and distances are exact reals. Double rounding, long-double overflow, and float tolerance in comparisons are not modelled.
- The `LDBL_MAX` starting distance is modelled as "no best yet". This matches the source's own assumption (ClosestPointQuery.h:53) that every real distance is below it.
- The `maxPoint` bound passed to the closest-point functor (ClosestPointQuery.h:68) is the same on every call, so it is absorbed into the `ClosestPointOracle` parameter. Under the same assumption, the functor never answers with that bound.
- The `primitives` list built and discarded in each query has no observable effect and is left out. So are the generator's unused `vertices` vector, the raw `new` without `delete`, and `srand(0)`.
- `rand()` is an input stream (`RandStream`) read through an explicit cursor.
- ClosestPoint.ClosestPointQuery.Query: on an empty mesh it returns `MeshEmpty` and caches nothing. The code instead returns and caches an uninitialised point.
- ClosestPoint.ClosestPointQuery.constructor: it accepts an empty mesh, as the code does, rather than failing at construction.
- ClosestPoint.ClosestPointQuery.Valid: cache consistency holds only while the shared triangle list is unchanged. The code never changes the list after construction, but the model does not forbid other holders of the list from doing so.
- Mesh.TriangleMesh.constructor: it generates what the code generates, a target in [100, 5099] and 2n - 2 points, not the vertexMin to vertexMax vertices the comment at TriangleMesh.h:69 announces.
- Mesh.TriangleMesh.constructor: it uses the corrected degeneracy loop, capped at MaxRedraws redraws (the code has no cap and no redraw). When a step exhausts the cap, generation stops early, `complete` is false, and the ghost field `failure` names that step.
- The `main` in dist_comp.cpp builds the library's search tree and prints results, and TestSuite.h compares a query against that tree and prints. Neither is modelled; the tree and printing are foreign-library calls and I/O. The example's geometry is stated as LibraryExampleScenario.

## Findings

| source | as written | input that shows it | evidently intended | confidence | as-written member | corrected member |
|---|---|---|---|---|---|---|
| TriangleMesh.h:48-55 | the apex `p` is drawn once, before the loop; the loop rebuilds Triangle(a, b, p) from the same points and retests it, so a degenerate first draw never ends | a stream whose values 1-9 are 0,0,0, 1,0,0, 2,0,0: seed points (0,0,0) and (0.01,0,0), first apex (0.02,0,0), all collinear | redraw `p` on each pass until the triangle is non-degenerate (capped here at MaxRedraws redraws) | not executed | Mesh.CollinearFirstApexHangs | Mesh.DrawApex |
