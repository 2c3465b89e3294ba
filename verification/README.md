# Quadtree geohash cell search

This project is a Dafny model of the bounding-box search in the `geohash` crate, with proofs about it. Given a world box, a query box and a zoom level, the search returns the quadtree cell codes of that level whose boxes overlap the query. That holds for a well-formed world box (min <= max on both axes) and zoom >= 1 (`SearchTheorems.SearchIsFilteredLevel`). At zoom 0 the result is `[1]` whatever the query, and with an inverted world box a cell that overlaps the query can be pruned with its parent (`Examples.InvertedWorldPrunesALiveCell`).

- **Cells and codes.** Each cell has a `u64` code: a sentinel `1` bit, then two bits per level naming the quadrant chosen. That layout holds up to zoom 31; past it the 64-bit shift drops the top bits.
- **Subdivision.** A cell splits into four children at the midpoints of its box. They are produced in the order bottom-left, top-right, bottom-right, top-left.
- **The search.** It keeps a queue of live cells, starting with the root (code `1`, the world box). Each round replaces every live cell by those of its children that strictly overlap the query.

## Modules

| file | module | contents |
|---|---|---|
| `bbox.dfy` | `BBox` | the box record and the strict overlap test |
| `quadtree.dfy` | `Quadtree` | quadrant tags, child codes with the `u64` shift wrap, child boxes, a cell's four children |
| `search.dfy` | `Search` | one round (`Step`), the level-by-level search, the returned codes, and the code-width and parent-link properties |
| `theorems.dfy` | `SearchTheorems` | distinct codes; the result as the filtered full level; emptiness exactly when the query misses the world |
| `paths.dfy` | `Paths` | a code read as a path of quadrant choices, and the box that path reaches |
| `queue.dfy` | `QueueSearch` | the queue-draining loops of the source as methods, proved equal to the functional search |
| `examples.dfy` | `Examples` | the source's test scenarios, replayed round by round, and inputs at the edges of the properties |

## Modelling choices

- **Coordinates.** Coordinates are `real`. The source uses `f64`, but only takes midpoints (a sum, then a halving) and compares them.
- **Codes.** Codes are `nat` below 2^64. The shift `p << 2` is modelled as `(p * 4) % 2^64`, so codes past zoom 31 wrap as they do in the source. The `| tag` is an addition, because the shifted value has its two low bits clear.
- **Queues.** The source's `LinkedList` queues are sequences. Pushing to the back is `+ [x]`. Draining the front is a loop over `rest[1..]`.
- **Zoom.** The zoom level is a `nat`. The source takes a `u32`, but only counts rounds with it.

## Model

| member | source | states |
|---|---|---|
| BBox.Intersects | crates/geohash/src/lib.rs:12-21 | The test holds exactly when each box's lower bound is strictly below the other's upper bound on both axes. |
| BBox.IntersectsSymmetric | crates/geohash/src/lib.rs:12-21 | The test gives the same answer with its arguments swapped. |
| BBox.TouchingBoxesDoNotIntersect | crates/geohash/src/lib.rs:12-21 | Boxes with an equal opposite bound (a shared edge or corner) are reported as not intersecting, in both argument orders. |
| BBox.IntersectsIffSharedInteriorPoint | crates/geohash/src/lib.rs:12-21 | For boxes with non-empty interiors, the test holds exactly when some point lies strictly inside both. |
| BBox.IntersectsMonotone | crates/geohash/src/lib.rs:12-21 | If a box meets the query, so does every box that contains it. |
| Quadtree.Tag | crates/geohash/src/lib.rs:57-60 | Each quadrant constant is below 4. Its low bit is set exactly for the top quadrants, its high bit exactly for the right quadrants. |
| Quadtree.QuadrantOf | crates/geohash/src/lib.rs:57-60 | Every two-bit value is the tag of the quadrant returned, so the four constants use all four values. |
| Quadtree.TagInjective | crates/geohash/src/lib.rs:57-60 | Different quadrants have different tags. |
| Quadtree.ShiftLeftTwo | crates/geohash/src/lib.rs:84-98 | A `u64` shift left by two equals four times the value with its top two bits dropped. |
| Quadtree.ChildCode | crates/geohash/src/lib.rs:84-98 | The low two bits of a child code are the quadrant tag. Shifting the code right by two gives the parent code without its top two bits. Below 2^62 that is the parent code itself, and the child code is `4*p + tag`. |
| Quadtree.ChildBox | crates/geohash/src/lib.rs:100-142 | A child box has half the parent's height and width. It keeps the parent's bound on the side its quadrant names. For a well-formed parent it is well-formed and inside the parent. |
| Quadtree.Children | crates/geohash/src/lib.rs:62-82 | Each child is `Child(c, q)`, the quadrant's code from `ChildCode` paired with its box from `ChildBox`, as lib.rs:64-79 pairs each `next_*_geo_hash` with its `next_*_bounding_box`. There are four children, in the order bottom-left, top-right, bottom-right, top-left. Their tags are 00, 11, 10, 01, and their codes are pairwise distinct. Each child code shifted right by two is the parent code while the parent is below 2^62. |
| Quadtree.SiblingsDisjoint | crates/geohash/src/lib.rs:100-142 | No two children of one cell intersect. |
| Quadtree.ChildrenCoverParent | crates/geohash/src/lib.rs:100-142 | Every point of a well-formed parent box, boundary included, lies in one of its children. |
| Quadtree.ChildInsideParent | crates/geohash/src/lib.rs:100-142 | Each child of a well-formed cell is a well-formed box inside the parent. |
| Quadtree.ChildIntersectsOnlyIfParentDoes | crates/geohash/src/lib.rs:100-142 | If a child of a well-formed cell meets the query, the cell does. So pruning a cell loses no live descendant. |
| Quadtree.ParentIntersectsSomeChild | crates/geohash/src/lib.rs:100-142 | A well-formed cell that meets a query with a non-empty interior has a child that meets it. |
| Search.Survivors | crates/geohash/src/lib.rs:45-49 | The kept cells are exactly the input cells that meet the query, and there are no more of them than input cells. |
| Search.SurvivorsAppend | crates/geohash/src/lib.rs:45-49 | Filtering a concatenation is concatenating the filtered parts. |
| Search.Step | crates/geohash/src/lib.rs:41-51 | One round returns at most four cells per frontier cell, and every one of them meets the query. |
| Search.StepParent | crates/geohash/src/lib.rs:41-51 | Every cell a round produces is the i-th child of some frontier cell. |
| Search.StepChild | crates/geohash/src/lib.rs:41-51 | Every child of a frontier cell that meets the query is in the round's output. |
| Search.StepMembers | crates/geohash/src/lib.rs:41-51 | A cell is in a round's output exactly when it meets the query and is a child of a frontier cell. |
| Search.StepAppend | crates/geohash/src/lib.rs:42-50 | The queue is drained front to back: the round over `a + b` is the round over `a` followed by the round over `b`. |
| Search.SearchCells | crates/geohash/src/lib.rs:35-52 | The search starts from `Root`, the cell with code 1 and the world box (lib.rs:36-39). After `zoom` rounds there are at most 4^zoom live cells. After at least one round, every live cell meets the query. |
| Search.Codes | crates/geohash/src/lib.rs:53 | The result lists the live cells' codes, one per cell, in queue order. |
| Search.GeoHashes | crates/geohash/src/lib.rs:30-54 | The search returns at most 4^zoom codes. |
| Search.ZoomZeroIsRoot | crates/geohash/src/lib.rs:35-53 | With zoom 0 the result is exactly `[1]`, whatever the world and query boxes. |
| Search.StepLevelCodes | crates/geohash/src/lib.rs:40-52 | A round maps level-d codes (4^d <= c < 2*4^d) to level-(d+1) codes, for d < 31. |
| Search.SearchLevelCodes | crates/geohash/src/lib.rs:35-52 | Up to zoom 31, every live cell after `zoom` rounds has a level-`zoom` code. |
| Search.CodeWidth | crates/geohash/src/lib.rs:36-53 | Up to zoom 31, every returned code c satisfies 4^zoom <= c < 2*4^zoom: its bit-length is 2*zoom+1. |
| Search.NoResurrection | crates/geohash/src/lib.rs:40-52 | Below zoom 31, every cell live after round zoom+1 is a child of a cell live after round zoom, and its code shifted right by two is that parent's code. |
| Search.ParentCodeLive | crates/geohash/src/lib.rs:40-53 | Below zoom 31, for every code c returned at zoom+1, c/4 is returned at zoom for the same inputs. |
| SearchTheorems.SurvivorsDistinct | crates/geohash/src/lib.rs:45-49 | Filtering keeps codes pairwise distinct. |
| SearchTheorems.StepDistinct | crates/geohash/src/lib.rs:41-51 | A round produces distinct codes when the frontier's codes stay distinct with their top two bits dropped, the bits the shift loses. |
| SearchTheorems.LevelLowCodes | crates/geohash/src/lib.rs:84-98 | Distinct codes of one level up to 31 stay distinct with their top two bits dropped. |
| SearchTheorems.SearchDistinct | crates/geohash/src/lib.rs:35-52 | Up to zoom 32, the live cells have pairwise distinct codes. |
| SearchTheorems.ResultHasNoDuplicates | crates/geohash/src/lib.rs:30-54 | Up to zoom 32, the returned codes are pairwise distinct. |
| SearchTheorems.Expand | crates/geohash/src/lib.rs:62-82 | Subdividing every cell of a level without pruning gives four cells per cell. |
| SearchTheorems.AllCells | crates/geohash/src/lib.rs:62-82 | The full, unpruned level `zoom` has exactly 4^zoom cells. |
| SearchTheorems.StepIsSurvivorsOfExpand | crates/geohash/src/lib.rs:41-51 | A round equals subdividing all frontier cells, then filtering by the query. |
| SearchTheorems.NoChildSurvives | crates/geohash/src/lib.rs:100-142 | A well-formed cell that misses the query has no child that meets it. |
| SearchTheorems.PruneBeforeExpand | crates/geohash/src/lib.rs:40-52 | For well-formed cells, filtering before subdividing gives the same final filtered list as subdividing everything. |
| SearchTheorems.SearchIsFilteredLevel | crates/geohash/src/lib.rs:30-54 | For a well-formed world and zoom >= 1, the live cells are exactly the full level's cells that meet the query, in the same order. |
| SearchTheorems.StepInsideWorld | crates/geohash/src/lib.rs:41-51 | A round keeps every cell a well-formed box inside the world. |
| SearchTheorems.LiveCellsInsideWorld | crates/geohash/src/lib.rs:35-52 | For a well-formed world, every live cell at every zoom is a well-formed box inside the world. |
| SearchTheorems.EmptyWhenDisjoint | crates/geohash/src/lib.rs:30-54 | For a well-formed world that the query misses, the result is empty at every zoom >= 1. |
| SearchTheorems.SomeCellSurvives | crates/geohash/src/lib.rs:30-54 | For a well-formed world and a query with a non-empty interior that meets it, some live cell meets the query at every zoom. |
| SearchTheorems.EmptyIffDisjoint | crates/geohash/src/lib.rs:30-54 | For a well-formed world, a query with a non-empty interior and zoom >= 1, the result is empty exactly when the query misses the world box. |
| Paths.CodeOf | crates/geohash/src/lib.rs:84-98 | The code of a path of d quadrant choices lies in [4^d, 2*4^d). |
| Paths.PathOf | crates/geohash/src/lib.rs:84-98 | Reading d quadrants from a code's low bits gives a path of length d. |
| Paths.PathOfCodeOf | crates/geohash/src/lib.rs:84-98 | Decoding the code of a path gives the path back. |
| Paths.CodeOfPathOf | crates/geohash/src/lib.rs:84-98 | Encoding the path read from a level-d code gives the code back. |
| Paths.CodeOfInjective | crates/geohash/src/lib.rs:36-40 | Because of the sentinel bit, equal codes mean equal paths, even across depths. |
| Paths.BoxAlong | crates/geohash/src/lib.rs:100-142 | After d steps, the box has the world's height and width halved d times. For a well-formed world it is well-formed and inside the world. |
| Paths.ChildFollowsPath | crates/geohash/src/lib.rs:62-98 | Below 2^62, the child of the cell reached by a path is the cell reached by that path extended with the child's quadrant, in both code and box. |
| Paths.LiveCellsFollowPaths | crates/geohash/src/lib.rs:35-52 | Up to zoom 31, every live cell is the cell reached by some path of `zoom` quadrant choices. |
| Paths.CodeDeterminesBox | crates/geohash/src/lib.rs:30-54 | Up to zoom 31, a live cell's box is the box reached by the path its code spells. |
| QueueSearch.PushSurvivors | crates/geohash/src/lib.rs:45-49 | The inner loop appends exactly the children that meet the query, in order. |
| QueueSearch.Round | crates/geohash/src/lib.rs:41-51 | Draining the queue front to back yields the functional round, with at most four cells per queued cell, all meeting the query. |
| QueueSearch.CollectCodes | crates/geohash/src/lib.rs:53 | The output holds the queue's codes, one per cell, in order. |
| QueueSearch.GeoHashesForBoundingBox | crates/geohash/src/lib.rs:30-54 | The imperative search returns the functional result. It has at most 4^zoom codes; at zoom 0 it is `[1]`; up to zoom 31 the codes have bit-length 2*zoom+1; for a well-formed world the query misses, it is empty at zoom >= 1. |
| Examples.IntersectionTestCases | crates/geohash/src/lib.rs:150-207 | The test's seven box pairs get the answers it asserts: five miss the first box (a gap, or an inverted box) and two overlap it. |
| Examples.Zoom2Case | crates/geohash/src/lib.rs:210-226 | World (-90,-180,90,180), query (1,1,3,3), zoom 2: the result is exactly [0b11100]. |
| Examples.Zoom3Case | crates/geohash/src/lib.rs:262-280 | The same world, query (44,46,50,50), zoom 3: the result is exactly [0b1110011, 0b1110110], in that order. |
| Examples.Zoom15Case | crates/geohash/src/lib.rs:229-260 | The same world, query (12.924052, 77.669285, 12.928086, 77.673468), zoom 15: exact arithmetic gives the four codes the test asserts, in its order. |
| Examples.InvertedWorldKeepsACell | crates/geohash/src/lib.rs:30-54 | With an inverted world box, a query that misses the world still gets a code at zoom 1. So emptiness needs a well-formed world. |
| Examples.InvertedWorldPrunesALiveCell | crates/geohash/src/lib.rs:30-54 | With an inverted world box, the level-2 cell 21 meets the query but its parent does not, so the zoom-2 result is empty. So the search equals the filtered level only for a well-formed world. |
| Examples.EquatorLineQueryFindsNothing | crates/geohash/src/lib.rs:30-54 | A zero-height query on the equator meets the world box, yet the result at zoom 1 is empty. So completeness needs a query with a non-empty interior. |
| Examples.CodesWrapPastZoom31 | crates/geohash/src/lib.rs:84-98 | Past level 31 the shift wraps: the bottom-left child of code 4^31 is 0, and that cell's top-left child is code 1, the root's code. |

## Left out

- The `geojson` crate: it is a serde schema with no search logic.
- NaN and infinite bounds: under `f64` every comparison with NaN is false, so `intersects` returns true and every cell passes. A NaN query then yields all 4^zoom codes. An infinite world box has NaN midpoints, so its children pass any query. The `real` model has no such values.
- `f64` rounding and overflow: midpoints and comparisons are exact here. In `f64` the sum of two finite bounds can overflow to infinity before the halving; here it cannot. The zoom-15 case is shown in exact arithmetic; that `f64` gives the same codes is not proved.
- The `LinkedList` API (`push_back`, `pop_front`, `append`): only the order it produces is modelled, as sequences.
- The derived `Debug`, `Copy` and `Clone` traits, and the test harness apart from the asserted values.
- The `u32` width of the zoom level: zoom is an unbounded `nat`, which only sets the number of rounds.
- Search.CodeWidth: holds only up to zoom 31. Past that the shift wraps (see Examples.CodesWrapPastZoom31) and codes leave the range.
- Search.NoResurrection, Search.ParentCodeLive: stated only below zoom 31, for the same reason: the shift drops the parent's top bits.
- SearchTheorems.ResultHasNoDuplicates: stated only up to zoom 32. A level-32 code has lost its sentinel bit but still holds all 32 quadrant choices. From zoom 33 on, each shift also drops the earliest choice, so two cells that differ only there can share a code. Across levels, wrapped codes can also come back (code 1 reappears, see Examples.CodesWrapPastZoom31).
- SearchTheorems.EmptyWhenDisjoint: requires a well-formed world (min <= max on both axes). The source does not check this, and an inverted world breaks the property (Examples.InvertedWorldKeepsACell).
- SearchTheorems.EmptyIffDisjoint: the "non-empty when they meet" direction also requires a query with a non-empty interior (Examples.EquatorLineQueryFindsNothing).
