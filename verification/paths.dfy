/** What a code means: the sequence of quadrant choices from the root,
    two bits per level below a leading sentinel bit, and the box those
    choices reach. */
module Paths {
  import opened BBox
  import opened Quadtree
  import opened Search

  /** The code of the cell reached from the root by `path` (root first),
      as an unbounded number. */
  function CodeOf(path: seq<Quadrant>): (c: nat)
    ensures Pow4(|path|) <= c < 2 * Pow4(|path|)
  {
    if |path| == 0 then 1
    else 4 * CodeOf(path[..|path| - 1]) + Tag(path[|path| - 1])
  }

  /** The `d` quadrant choices spelled by the low `2*d` bits of `code`. */
  function PathOf(code: nat, d: nat): (p: seq<Quadrant>)
    ensures |p| == d
  {
    if d == 0 then []
    else PathOf(code / 4, d - 1) + [QuadrantOf(code % 4)]
  }

  /** Decoding an encoded path gives the path back. */
  lemma {:induction false} PathOfCodeOf(path: seq<Quadrant>)
    ensures PathOf(CodeOf(path), |path|) == path
    decreases |path|
  {
    if |path| > 0 {
      var init := path[..|path| - 1];
      var last := path[|path| - 1];
      PathOfCodeOf(init);
      var c := CodeOf(path);
      assert c == 4 * CodeOf(init) + Tag(last);
      assert c / 4 == CodeOf(init);
      assert c % 4 == Tag(last);
      TagInjective(QuadrantOf(c % 4), last);
      assert path == init + [last];
    }
  }

  /** Encoding the path a code of the right width spells gives the code
      back: the sentinel bit is what tells the width. */
  lemma {:induction false} CodeOfPathOf(code: nat, d: nat)
    requires Pow4(d) <= code < 2 * Pow4(d)
    ensures CodeOf(PathOf(code, d)) == code
    decreases d
  {
    if d > 0 {
      var p := PathOf(code, d);
      CodeOfPathOf(code / 4, d - 1);
      assert p[..d - 1] == PathOf(code / 4, d - 1);
      assert p[d - 1] == QuadrantOf(code % 4);
    }
  }

  /** The sentinel makes codes of different depths distinct: one number
      names at most one path. */
  lemma CodeOfInjective(p1: seq<Quadrant>, p2: seq<Quadrant>)
    requires CodeOf(p1) == CodeOf(p2)
    ensures p1 == p2
  {
    if |p1| < |p2| {
      Pow4Monotone(|p1| + 1, |p2|);
      assert false;
    } else if |p2| < |p1| {
      Pow4Monotone(|p2| + 1, |p1|);
      assert false;
    } else {
      PathOfCodeOf(p1);
      PathOfCodeOf(p2);
    }
  }

  /** `x` halved `n` times. */
  function Halved(x: real, n: nat): real {
    if n == 0 then x else Halved(x, n - 1) / 2.0
  }

  /** The box reached from `world` by following `path`. */
  function BoxAlong(world: BoundingBox, path: seq<Quadrant>): (r: BoundingBox)
    ensures r.maxLat - r.minLat == Halved(world.maxLat - world.minLat, |path|)
    ensures r.maxLng - r.minLng == Halved(world.maxLng - world.minLng, |path|)
    ensures WellFormed(world) ==> WellFormed(r) && Contains(world, r)
  {
    if |path| == 0 then world
    else ChildBox(BoxAlong(world, path[..|path| - 1]), path[|path| - 1])
  }

  /** One subdivision extends the path by the chosen quadrant, while the
      parent code still has room for two more bits. */
  lemma ChildFollowsPath(world: BoundingBox, path: seq<Quadrant>, quad: Quadrant, c: Cell)
    requires c.code == CodeOf(path) && c.code < TwoTo62
    requires c.box == BoxAlong(world, path)
    ensures Child(c, quad).code == CodeOf(path + [quad])
    ensures Child(c, quad).box == BoxAlong(world, path + [quad])
  {
    assert (path + [quad])[..|path|] == path;
  }

  /** `c` is the cell that the level-`d` path `path` leads to. */
  ghost predicate FollowsPath(world: BoundingBox, c: Cell, path: seq<Quadrant>) {
    c.code == CodeOf(path) && c.box == BoxAlong(world, path)
  }

  lemma ChildOfFollower(world: BoundingBox, p: Cell, path: seq<Quadrant>, i: nat)
    requires |path| <= 30 && i < 4
    requires FollowsPath(world, p, path)
    ensures FollowsPath(world, Children(p)[i], path + [EmissionOrder[i]])
  {
    Pow4Headroom(|path|);
    ChildFollowsPath(world, path, EmissionOrder[i], p);
  }

  /** `c` is the cell some level-`d` path leads to. */
  ghost predicate OnSomePath(world: BoundingBox, c: Cell, d: nat) {
    exists path :: |path| == d && FollowsPath(world, c, path)
  }

  /** A child of a cell reached by a level-`d` path is reached by a
      level-`d + 1` path. */
  lemma ChildOnSomePath(world: BoundingBox, p: Cell, d: nat, i: nat)
    requires d <= 30 && i < 4
    requires OnSomePath(world, p, d)
    ensures OnSomePath(world, Children(p)[i], d + 1)
  {
    var path :| |path| == d && FollowsPath(world, p, path);
    ChildOfFollower(world, p, path, i);
    assert |path + [EmissionOrder[i]]| == d + 1;
  }

  lemma {:induction false} LiveCellsFollowPaths(world: BoundingBox, q: BoundingBox, zoom: nat)
    requires zoom <= 31
    ensures forall c :: c in SearchCells(world, q, zoom) ==> OnSomePath(world, c, zoom)
  {
    if zoom == 0 {
      assert FollowsPath(world, Root(world), []);
      assert OnSomePath(world, Root(world), 0);
    } else {
      LiveCellsFollowPaths(world, q, zoom - 1);
      var f := SearchCells(world, q, zoom - 1);
      forall c | c in SearchCells(world, q, zoom)
        ensures OnSomePath(world, c, zoom)
      {
        var p, i := StepParent(f, q, c);
        ChildOnSomePath(world, p, zoom - 1, i);
      }
    }
  }

  /** Code identity: up to zoom 31 every live cell is exactly the cell its
      code spells, so the code alone determines the box. */
  lemma CodeDeterminesBox(world: BoundingBox, q: BoundingBox, zoom: nat, c: Cell)
    requires zoom <= 31
    requires c in SearchCells(world, q, zoom)
    ensures c.box == BoxAlong(world, PathOf(c.code, zoom))
    ensures CodeOf(PathOf(c.code, zoom)) == c.code
  {
    LiveCellsFollowPaths(world, q, zoom);
    assert OnSomePath(world, c, zoom);
    var path :| |path| == zoom && FollowsPath(world, c, path);
    PathOfCodeOf(path);
  }
}
