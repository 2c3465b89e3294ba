/** The `#[cfg(test)]` scenarios of `geo_hashes_for_bounding_box` in the
    Rust `geohash` crate, replayed on the model round by round, and small
    inputs that show the edges of the stated properties. */
module Examples {
  import opened BBox
  import opened Quadtree
  import opened Search

  /** The world box every test scenario uses. */
  const World := BoundingBox(-90.0, -180.0, 90.0, 180.0)

  lemma StepOne(f: seq<Cell>, q: BoundingBox)
    requires |f| == 1
    ensures Step(f, q) == Survivors(Children(f[0]), q)
  {
    assert f[1..] == [];
  }

  lemma StepTwo(f: seq<Cell>, q: BoundingBox)
    requires |f| == 2
    ensures Step(f, q) == Survivors(Children(f[0]), q) + Survivors(Children(f[1]), q)
  {
    StepOne(f[1..], q);
  }

  /** A round over one cell whose children and survivors are known. */
  lemma RoundOfOne(f: seq<Cell>, q: BoundingBox, kept: seq<Cell>)
    requires |f| == 1 && Survivors(Children(f[0]), q) == kept
    ensures Step(f, q) == kept
  {
    StepOne(f, q);
  }

  /** A round over two cells, from the rounds over each of them. */
  lemma RoundOfTwo(f: seq<Cell>, q: BoundingBox, keptA: seq<Cell>, keptB: seq<Cell>)
    requires |f| == 2
    requires Step([f[0]], q) == keptA && Step([f[1]], q) == keptB
    ensures Step(f, q) == keptA + keptB
  {
    StepOne([f[0]], q);
    StepOne([f[1]], q);
    StepTwo(f, q);
  }

  /** Joins the outputs of two single-cell rounds. */
  lemma Join11(a: Cell, b: Cell)
    ensures [a] + [b] == [a, b]
  {
  }

  lemma Join22(a: Cell, b: Cell, c: Cell, d: Cell)
    ensures [a, b] + [c, d] == [a, b, c, d]
  {
  }

  /** Keeps `c` when it meets `q`. */
  function Keep(c: Cell, q: BoundingBox): seq<Cell> {
    if Intersects(c.box, q) then [c] else []
  }

  lemma SurvivorsOfFour(s: seq<Cell>, q: BoundingBox)
    requires |s| == 4
    ensures Survivors(s, q) == Keep(s[0], q) + (Keep(s[1], q) + (Keep(s[2], q) + Keep(s[3], q)))
  {
    assert s[3..][1..] == [];
    assert Survivors(s[3..], q) == Keep(s[3], q);
    assert s[2..][1..] == s[3..];
    assert Survivors(s[2..], q) == Keep(s[2], q) + Keep(s[3], q);
    assert s[1..][1..] == s[2..];
    assert Survivors(s[1..], q) == Keep(s[1], q) + (Keep(s[2], q) + Keep(s[3], q));
  }

  /** The cases of the crate's `test_bounding_box_intersection`: five
      boxes the test expects to miss the unit box (separated by a gap, or
      inverted) and two it expects to overlap it (one inside, one across a
      corner). */
  lemma IntersectionTestCases()
    ensures var unit := BoundingBox(0.0, 0.0, 2.0, 2.0);
            !Intersects(unit, BoundingBox(2.1, 2.1, 3.3, 3.3)) &&
            !Intersects(unit, BoundingBox(0.0, 2.000001, 2.0, 3.0)) &&
            !Intersects(unit, BoundingBox(2.000001, 0.0, 3.0, 3.0)) &&
            !Intersects(unit, BoundingBox(-0.000001, 0.0, -2.0, 2.0)) &&
            !Intersects(unit, BoundingBox(0.0, -4.0, 2.0, -2.000001)) &&
            Intersects(unit, BoundingBox(1.5, 1.5, 1.8, 1.8)) &&
            Intersects(unit, BoundingBox(1.5, 1.5, 2.5, 2.5))
  {
  }

  /** A world box with inverted latitude bounds breaks the emptiness
      property: the query misses the world box, yet the top-left child
      (whose bounds are again inverted) passes the test. */
  lemma InvertedWorldKeepsACell()
    ensures var world := BoundingBox(10.0, 0.0, 0.0, 10.0);
            var q := BoundingBox(-1.0, 1.0, 6.0, 2.0);
            !Intersects(world, q) && GeoHashes(world, q, 1) == [0x5]
  {
    var world := BoundingBox(10.0, 0.0, 0.0, 10.0);
    var q := BoundingBox(-1.0, 1.0, 6.0, 2.0);
    StepOne([Root(world)], q);
    SurvivorsOfFour(Children(Root(world)), q);
  }

  /** With an inverted world box the result is not the level filtered by
      the query: the level-2 cell 21 (top-left of top-left) meets the query,
      but its parent, cell 5, does not and is pruned, so zoom 2 returns
      nothing. */
  lemma InvertedWorldPrunesALiveCell()
    ensures var world := BoundingBox(10.0, 0.0, 0.0, 10.0);
            var q := BoundingBox(-2.0, 1.0, 3.0, 2.0);
            var cell := Child(Child(Root(world), TopLeft), TopLeft);
            cell.code == 21 && Intersects(cell.box, q) && GeoHashes(world, q, 2) == []
  {
    var world := BoundingBox(10.0, 0.0, 0.0, 10.0);
    var q := BoundingBox(-2.0, 1.0, 3.0, 2.0);
    StepOne([Root(world)], q);
    SurvivorsOfFour(Children(Root(world)), q);
    assert SearchCells(world, q, 1) == [];
    assert SearchCells(world, q, 2) == Step([], q);
  }

  /** A zero-height query on the equator meets the world box but none of its
      children, whose shared edge it lies on. */
  lemma EquatorLineQueryFindsNothing()
    ensures var q := BoundingBox(0.0, 10.0, 0.0, 20.0);
            Intersects(World, q) && GeoHashes(World, q, 1) == []
  {
    var q := BoundingBox(0.0, 10.0, 0.0, 20.0);
    StepOne([Root(World)], q);
    SurvivorsOfFour(Children(Root(World)), q);
  }

  /** Past zoom 31 the `u64` shift wraps: the bottom-left child of the
      level-31 bottom-left corner code `4^31` loses the sentinel bit and
      comes out as 0, and that cell's top-left child gets code 1, the
      root's own code. */
  lemma CodesWrapPastZoom31()
    ensures ChildCode(TwoTo62, BottomLeft) == 0
    ensures ChildCode(ChildCode(TwoTo62, BottomLeft), TopLeft) == 1
  {
  }

  const QueryZoom2 := BoundingBox(1.0, 1.0, 3.0, 3.0)

  lemma SplitCell1(c: Cell)
    requires c == Cell(1, BoundingBox(-90.0, -180.0, 90.0, 180.0))
    ensures Children(c) == [
      Cell(4, BoundingBox(-90.0, -180.0, 0.0, 0.0)),
      Cell(7, BoundingBox(0.0, 0.0, 90.0, 180.0)),
      Cell(6, BoundingBox(-90.0, 0.0, 0.0, 180.0)),
      Cell(5, BoundingBox(0.0, -180.0, 90.0, 0.0))]
  {
    assert Child(c, BottomLeft)
        == Cell(4, BoundingBox(-90.0, -180.0, 0.0, 0.0));
    assert Child(c, TopRight)
        == Cell(7, BoundingBox(0.0, 0.0, 90.0, 180.0));
    assert Child(c, BottomRight)
        == Cell(6, BoundingBox(-90.0, 0.0, 0.0, 180.0));
    assert Child(c, TopLeft)
        == Cell(5, BoundingBox(0.0, -180.0, 90.0, 0.0));
  }

  lemma Zoom2Round01Filter(s: seq<Cell>)
    requires s == [
      Cell(4, BoundingBox(-90.0, -180.0, 0.0, 0.0)),
      Cell(7, BoundingBox(0.0, 0.0, 90.0, 180.0)),
      Cell(6, BoundingBox(-90.0, 0.0, 0.0, 180.0)),
      Cell(5, BoundingBox(0.0, -180.0, 90.0, 0.0))]
    ensures Survivors(s, QueryZoom2)
            == [Cell(7, BoundingBox(0.0, 0.0, 90.0, 180.0))]
  {
    SurvivorsOfFour(s, QueryZoom2);
    assert !Intersects(BoundingBox(-90.0, -180.0, 0.0, 0.0), QueryZoom2);
    assert Intersects(BoundingBox(0.0, 0.0, 90.0, 180.0), QueryZoom2);
    assert !Intersects(BoundingBox(-90.0, 0.0, 0.0, 180.0), QueryZoom2);
    assert !Intersects(BoundingBox(0.0, -180.0, 90.0, 0.0), QueryZoom2);
  }

  lemma Zoom2Round01(f: seq<Cell>)
    requires f == [Cell(1, BoundingBox(-90.0, -180.0, 90.0, 180.0))]
    ensures Step(f, QueryZoom2)
            == [Cell(7, BoundingBox(0.0, 0.0, 90.0, 180.0))]
  {
    SplitCell1(f[0]);
    Zoom2Round01Filter(Children(f[0]));
    RoundOfOne(f, QueryZoom2, Survivors(Children(f[0]), QueryZoom2));
  }

  lemma Zoom2Level01(w: BoundingBox, q: BoundingBox)
    requires w == World && q == QueryZoom2
    ensures SearchCells(w, q, 1) == [Cell(7, BoundingBox(0.0, 0.0, 90.0, 180.0))]
  {
    assert SearchCells(w, q, 0) == [Root(w)];
    Zoom2Round01(SearchCells(w, q, 0));
  }

  lemma SplitCell7(c: Cell)
    requires c == Cell(7, BoundingBox(0.0, 0.0, 90.0, 180.0))
    ensures Children(c) == [
      Cell(28, BoundingBox(0.0, 0.0, 45.0, 90.0)),
      Cell(31, BoundingBox(45.0, 90.0, 90.0, 180.0)),
      Cell(30, BoundingBox(0.0, 90.0, 45.0, 180.0)),
      Cell(29, BoundingBox(45.0, 0.0, 90.0, 90.0))]
  {
    assert Child(c, BottomLeft)
        == Cell(28, BoundingBox(0.0, 0.0, 45.0, 90.0));
    assert Child(c, TopRight)
        == Cell(31, BoundingBox(45.0, 90.0, 90.0, 180.0));
    assert Child(c, BottomRight)
        == Cell(30, BoundingBox(0.0, 90.0, 45.0, 180.0));
    assert Child(c, TopLeft)
        == Cell(29, BoundingBox(45.0, 0.0, 90.0, 90.0));
  }

  lemma Zoom2Round02Filter(s: seq<Cell>)
    requires s == [
      Cell(28, BoundingBox(0.0, 0.0, 45.0, 90.0)),
      Cell(31, BoundingBox(45.0, 90.0, 90.0, 180.0)),
      Cell(30, BoundingBox(0.0, 90.0, 45.0, 180.0)),
      Cell(29, BoundingBox(45.0, 0.0, 90.0, 90.0))]
    ensures Survivors(s, QueryZoom2)
            == [Cell(28, BoundingBox(0.0, 0.0, 45.0, 90.0))]
  {
    SurvivorsOfFour(s, QueryZoom2);
    assert Intersects(BoundingBox(0.0, 0.0, 45.0, 90.0), QueryZoom2);
    assert !Intersects(BoundingBox(45.0, 90.0, 90.0, 180.0), QueryZoom2);
    assert !Intersects(BoundingBox(0.0, 90.0, 45.0, 180.0), QueryZoom2);
    assert !Intersects(BoundingBox(45.0, 0.0, 90.0, 90.0), QueryZoom2);
  }

  lemma Zoom2Round02(f: seq<Cell>)
    requires f == [Cell(7, BoundingBox(0.0, 0.0, 90.0, 180.0))]
    ensures Step(f, QueryZoom2)
            == [Cell(28, BoundingBox(0.0, 0.0, 45.0, 90.0))]
  {
    SplitCell7(f[0]);
    Zoom2Round02Filter(Children(f[0]));
    RoundOfOne(f, QueryZoom2, Survivors(Children(f[0]), QueryZoom2));
  }

  lemma Zoom2Level02(w: BoundingBox, q: BoundingBox)
    requires w == World && q == QueryZoom2
    ensures SearchCells(w, q, 2) == [Cell(28, BoundingBox(0.0, 0.0, 45.0, 90.0))]
  {
    Zoom2Level01(w, q);
    Zoom2Round02(SearchCells(w, q, 1));
  }

  lemma Zoom2Codes(s: seq<Cell>)
    requires s == [Cell(28, BoundingBox(0.0, 0.0, 45.0, 90.0))]
    ensures Codes(s) == [28]
  {
  }

  /** The zoom-2 test of `geo_hashes_for_bounding_box`: codes
      0b11100. */
  lemma Zoom2Case()
    ensures GeoHashes(World, QueryZoom2, 2) == [28]
  {
    Zoom2Level02(World, QueryZoom2);
    Zoom2Codes(SearchCells(World, QueryZoom2, 2));
  }

  const QueryZoom3 := BoundingBox(44.0, 46.0, 50.0, 50.0)

  lemma Zoom3Round01Filter(s: seq<Cell>)
    requires s == [
      Cell(4, BoundingBox(-90.0, -180.0, 0.0, 0.0)),
      Cell(7, BoundingBox(0.0, 0.0, 90.0, 180.0)),
      Cell(6, BoundingBox(-90.0, 0.0, 0.0, 180.0)),
      Cell(5, BoundingBox(0.0, -180.0, 90.0, 0.0))]
    ensures Survivors(s, QueryZoom3)
            == [Cell(7, BoundingBox(0.0, 0.0, 90.0, 180.0))]
  {
    SurvivorsOfFour(s, QueryZoom3);
    assert !Intersects(BoundingBox(-90.0, -180.0, 0.0, 0.0), QueryZoom3);
    assert Intersects(BoundingBox(0.0, 0.0, 90.0, 180.0), QueryZoom3);
    assert !Intersects(BoundingBox(-90.0, 0.0, 0.0, 180.0), QueryZoom3);
    assert !Intersects(BoundingBox(0.0, -180.0, 90.0, 0.0), QueryZoom3);
  }

  lemma Zoom3Round01(f: seq<Cell>)
    requires f == [Cell(1, BoundingBox(-90.0, -180.0, 90.0, 180.0))]
    ensures Step(f, QueryZoom3)
            == [Cell(7, BoundingBox(0.0, 0.0, 90.0, 180.0))]
  {
    SplitCell1(f[0]);
    Zoom3Round01Filter(Children(f[0]));
    RoundOfOne(f, QueryZoom3, Survivors(Children(f[0]), QueryZoom3));
  }

  lemma Zoom3Level01(w: BoundingBox, q: BoundingBox)
    requires w == World && q == QueryZoom3
    ensures SearchCells(w, q, 1) == [Cell(7, BoundingBox(0.0, 0.0, 90.0, 180.0))]
  {
    assert SearchCells(w, q, 0) == [Root(w)];
    Zoom3Round01(SearchCells(w, q, 0));
  }

  lemma Zoom3Round02Filter(s: seq<Cell>)
    requires s == [
      Cell(28, BoundingBox(0.0, 0.0, 45.0, 90.0)),
      Cell(31, BoundingBox(45.0, 90.0, 90.0, 180.0)),
      Cell(30, BoundingBox(0.0, 90.0, 45.0, 180.0)),
      Cell(29, BoundingBox(45.0, 0.0, 90.0, 90.0))]
    ensures Survivors(s, QueryZoom3)
            == [Cell(28, BoundingBox(0.0, 0.0, 45.0, 90.0)), Cell(29, BoundingBox(45.0, 0.0, 90.0, 90.0))]
  {
    SurvivorsOfFour(s, QueryZoom3);
    assert Intersects(BoundingBox(0.0, 0.0, 45.0, 90.0), QueryZoom3);
    assert !Intersects(BoundingBox(45.0, 90.0, 90.0, 180.0), QueryZoom3);
    assert !Intersects(BoundingBox(0.0, 90.0, 45.0, 180.0), QueryZoom3);
    assert Intersects(BoundingBox(45.0, 0.0, 90.0, 90.0), QueryZoom3);
  }

  lemma Zoom3Round02(f: seq<Cell>)
    requires f == [Cell(7, BoundingBox(0.0, 0.0, 90.0, 180.0))]
    ensures Step(f, QueryZoom3)
            == [Cell(28, BoundingBox(0.0, 0.0, 45.0, 90.0)), Cell(29, BoundingBox(45.0, 0.0, 90.0, 90.0))]
  {
    SplitCell7(f[0]);
    Zoom3Round02Filter(Children(f[0]));
    RoundOfOne(f, QueryZoom3, Survivors(Children(f[0]), QueryZoom3));
  }

  lemma Zoom3Level02(w: BoundingBox, q: BoundingBox)
    requires w == World && q == QueryZoom3
    ensures SearchCells(w, q, 2) == [
      Cell(28, BoundingBox(0.0, 0.0, 45.0, 90.0)),
      Cell(29, BoundingBox(45.0, 0.0, 90.0, 90.0))]
  {
    Zoom3Level01(w, q);
    Zoom3Round02(SearchCells(w, q, 1));
  }

  lemma SplitCell28(c: Cell)
    requires c == Cell(28, BoundingBox(0.0, 0.0, 45.0, 90.0))
    ensures Children(c) == [
      Cell(112, BoundingBox(0.0, 0.0, 22.5, 45.0)),
      Cell(115, BoundingBox(22.5, 45.0, 45.0, 90.0)),
      Cell(114, BoundingBox(0.0, 45.0, 22.5, 90.0)),
      Cell(113, BoundingBox(22.5, 0.0, 45.0, 45.0))]
  {
    assert Child(c, BottomLeft)
        == Cell(112, BoundingBox(0.0, 0.0, 22.5, 45.0));
    assert Child(c, TopRight)
        == Cell(115, BoundingBox(22.5, 45.0, 45.0, 90.0));
    assert Child(c, BottomRight)
        == Cell(114, BoundingBox(0.0, 45.0, 22.5, 90.0));
    assert Child(c, TopLeft)
        == Cell(113, BoundingBox(22.5, 0.0, 45.0, 45.0));
  }

  lemma Zoom3Round03aFilter(s: seq<Cell>)
    requires s == [
      Cell(112, BoundingBox(0.0, 0.0, 22.5, 45.0)),
      Cell(115, BoundingBox(22.5, 45.0, 45.0, 90.0)),
      Cell(114, BoundingBox(0.0, 45.0, 22.5, 90.0)),
      Cell(113, BoundingBox(22.5, 0.0, 45.0, 45.0))]
    ensures Survivors(s, QueryZoom3)
            == [Cell(115, BoundingBox(22.5, 45.0, 45.0, 90.0))]
  {
    SurvivorsOfFour(s, QueryZoom3);
    assert !Intersects(BoundingBox(0.0, 0.0, 22.5, 45.0), QueryZoom3);
    assert Intersects(BoundingBox(22.5, 45.0, 45.0, 90.0), QueryZoom3);
    assert !Intersects(BoundingBox(0.0, 45.0, 22.5, 90.0), QueryZoom3);
    assert !Intersects(BoundingBox(22.5, 0.0, 45.0, 45.0), QueryZoom3);
  }

  lemma Zoom3Round03a(c: Cell)
    requires c == Cell(28, BoundingBox(0.0, 0.0, 45.0, 90.0))
    ensures Step([c], QueryZoom3)
            == [Cell(115, BoundingBox(22.5, 45.0, 45.0, 90.0))]
  {
    SplitCell28(c);
    Zoom3Round03aFilter(Children(c));
    RoundOfOne([c], QueryZoom3, Survivors(Children(c), QueryZoom3));
  }

  lemma SplitCell29(c: Cell)
    requires c == Cell(29, BoundingBox(45.0, 0.0, 90.0, 90.0))
    ensures Children(c) == [
      Cell(116, BoundingBox(45.0, 0.0, 67.5, 45.0)),
      Cell(119, BoundingBox(67.5, 45.0, 90.0, 90.0)),
      Cell(118, BoundingBox(45.0, 45.0, 67.5, 90.0)),
      Cell(117, BoundingBox(67.5, 0.0, 90.0, 45.0))]
  {
    assert Child(c, BottomLeft)
        == Cell(116, BoundingBox(45.0, 0.0, 67.5, 45.0));
    assert Child(c, TopRight)
        == Cell(119, BoundingBox(67.5, 45.0, 90.0, 90.0));
    assert Child(c, BottomRight)
        == Cell(118, BoundingBox(45.0, 45.0, 67.5, 90.0));
    assert Child(c, TopLeft)
        == Cell(117, BoundingBox(67.5, 0.0, 90.0, 45.0));
  }

  lemma Zoom3Round03bFilter(s: seq<Cell>)
    requires s == [
      Cell(116, BoundingBox(45.0, 0.0, 67.5, 45.0)),
      Cell(119, BoundingBox(67.5, 45.0, 90.0, 90.0)),
      Cell(118, BoundingBox(45.0, 45.0, 67.5, 90.0)),
      Cell(117, BoundingBox(67.5, 0.0, 90.0, 45.0))]
    ensures Survivors(s, QueryZoom3)
            == [Cell(118, BoundingBox(45.0, 45.0, 67.5, 90.0))]
  {
    SurvivorsOfFour(s, QueryZoom3);
    assert !Intersects(BoundingBox(45.0, 0.0, 67.5, 45.0), QueryZoom3);
    assert !Intersects(BoundingBox(67.5, 45.0, 90.0, 90.0), QueryZoom3);
    assert Intersects(BoundingBox(45.0, 45.0, 67.5, 90.0), QueryZoom3);
    assert !Intersects(BoundingBox(67.5, 0.0, 90.0, 45.0), QueryZoom3);
  }

  lemma Zoom3Round03b(c: Cell)
    requires c == Cell(29, BoundingBox(45.0, 0.0, 90.0, 90.0))
    ensures Step([c], QueryZoom3)
            == [Cell(118, BoundingBox(45.0, 45.0, 67.5, 90.0))]
  {
    SplitCell29(c);
    Zoom3Round03bFilter(Children(c));
    RoundOfOne([c], QueryZoom3, Survivors(Children(c), QueryZoom3));
  }

  lemma Zoom3Round03(a: Cell, b: Cell)
    requires a == Cell(28, BoundingBox(0.0, 0.0, 45.0, 90.0))
    requires b == Cell(29, BoundingBox(45.0, 0.0, 90.0, 90.0))
    ensures Step([a, b], QueryZoom3)
            == [Cell(115, BoundingBox(22.5, 45.0, 45.0, 90.0)), Cell(118, BoundingBox(45.0, 45.0, 67.5, 90.0))]
  {
    Zoom3Round03a(a);
    Zoom3Round03b(b);
    RoundOfTwo([a, b], QueryZoom3, Step([a], QueryZoom3), Step([b], QueryZoom3));
    Join11(
      Cell(115, BoundingBox(22.5, 45.0, 45.0, 90.0)),
      Cell(118, BoundingBox(45.0, 45.0, 67.5, 90.0)));
  }

  lemma Zoom3Level03(w: BoundingBox, q: BoundingBox)
    requires w == World && q == QueryZoom3
    ensures SearchCells(w, q, 3) == [
      Cell(115, BoundingBox(22.5, 45.0, 45.0, 90.0)),
      Cell(118, BoundingBox(45.0, 45.0, 67.5, 90.0))]
  {
    Zoom3Level02(w, q);
    var s := SearchCells(w, q, 2);
    assert s == [s[0], s[1]];
    Zoom3Round03(s[0], s[1]);
  }

  lemma Zoom3Codes(s: seq<Cell>)
    requires s == [Cell(115, BoundingBox(22.5, 45.0, 45.0, 90.0)), Cell(118, BoundingBox(45.0, 45.0, 67.5, 90.0))]
    ensures Codes(s) == [115, 118]
  {
  }

  /** The zoom-3 test of `geo_hashes_for_bounding_box`: codes
      0b1110011,
      0b1110110. */
  lemma Zoom3Case()
    ensures GeoHashes(World, QueryZoom3, 3) == [115, 118]
  {
    Zoom3Level03(World, QueryZoom3);
    Zoom3Codes(SearchCells(World, QueryZoom3, 3));
  }

  const QueryZoom15 := BoundingBox(12.924052, 77.669285, 12.928086, 77.673468)

  lemma Zoom15Round01Filter(s: seq<Cell>)
    requires s == [
      Cell(4, BoundingBox(-90.0, -180.0, 0.0, 0.0)),
      Cell(7, BoundingBox(0.0, 0.0, 90.0, 180.0)),
      Cell(6, BoundingBox(-90.0, 0.0, 0.0, 180.0)),
      Cell(5, BoundingBox(0.0, -180.0, 90.0, 0.0))]
    ensures Survivors(s, QueryZoom15)
            == [Cell(7, BoundingBox(0.0, 0.0, 90.0, 180.0))]
  {
    SurvivorsOfFour(s, QueryZoom15);
    assert !Intersects(BoundingBox(-90.0, -180.0, 0.0, 0.0), QueryZoom15);
    assert Intersects(BoundingBox(0.0, 0.0, 90.0, 180.0), QueryZoom15);
    assert !Intersects(BoundingBox(-90.0, 0.0, 0.0, 180.0), QueryZoom15);
    assert !Intersects(BoundingBox(0.0, -180.0, 90.0, 0.0), QueryZoom15);
  }

  lemma Zoom15Round01(f: seq<Cell>)
    requires f == [Cell(1, BoundingBox(-90.0, -180.0, 90.0, 180.0))]
    ensures Step(f, QueryZoom15)
            == [Cell(7, BoundingBox(0.0, 0.0, 90.0, 180.0))]
  {
    SplitCell1(f[0]);
    Zoom15Round01Filter(Children(f[0]));
    RoundOfOne(f, QueryZoom15, Survivors(Children(f[0]), QueryZoom15));
  }

  lemma Zoom15Level01(w: BoundingBox, q: BoundingBox)
    requires w == World && q == QueryZoom15
    ensures SearchCells(w, q, 1) == [Cell(7, BoundingBox(0.0, 0.0, 90.0, 180.0))]
  {
    assert SearchCells(w, q, 0) == [Root(w)];
    Zoom15Round01(SearchCells(w, q, 0));
  }

  lemma Zoom15Round02Filter(s: seq<Cell>)
    requires s == [
      Cell(28, BoundingBox(0.0, 0.0, 45.0, 90.0)),
      Cell(31, BoundingBox(45.0, 90.0, 90.0, 180.0)),
      Cell(30, BoundingBox(0.0, 90.0, 45.0, 180.0)),
      Cell(29, BoundingBox(45.0, 0.0, 90.0, 90.0))]
    ensures Survivors(s, QueryZoom15)
            == [Cell(28, BoundingBox(0.0, 0.0, 45.0, 90.0))]
  {
    SurvivorsOfFour(s, QueryZoom15);
    assert Intersects(BoundingBox(0.0, 0.0, 45.0, 90.0), QueryZoom15);
    assert !Intersects(BoundingBox(45.0, 90.0, 90.0, 180.0), QueryZoom15);
    assert !Intersects(BoundingBox(0.0, 90.0, 45.0, 180.0), QueryZoom15);
    assert !Intersects(BoundingBox(45.0, 0.0, 90.0, 90.0), QueryZoom15);
  }

  lemma Zoom15Round02(f: seq<Cell>)
    requires f == [Cell(7, BoundingBox(0.0, 0.0, 90.0, 180.0))]
    ensures Step(f, QueryZoom15)
            == [Cell(28, BoundingBox(0.0, 0.0, 45.0, 90.0))]
  {
    SplitCell7(f[0]);
    Zoom15Round02Filter(Children(f[0]));
    RoundOfOne(f, QueryZoom15, Survivors(Children(f[0]), QueryZoom15));
  }

  lemma Zoom15Level02(w: BoundingBox, q: BoundingBox)
    requires w == World && q == QueryZoom15
    ensures SearchCells(w, q, 2) == [Cell(28, BoundingBox(0.0, 0.0, 45.0, 90.0))]
  {
    Zoom15Level01(w, q);
    Zoom15Round02(SearchCells(w, q, 1));
  }

  lemma Zoom15Round03Filter(s: seq<Cell>)
    requires s == [
      Cell(112, BoundingBox(0.0, 0.0, 22.5, 45.0)),
      Cell(115, BoundingBox(22.5, 45.0, 45.0, 90.0)),
      Cell(114, BoundingBox(0.0, 45.0, 22.5, 90.0)),
      Cell(113, BoundingBox(22.5, 0.0, 45.0, 45.0))]
    ensures Survivors(s, QueryZoom15)
            == [Cell(114, BoundingBox(0.0, 45.0, 22.5, 90.0))]
  {
    SurvivorsOfFour(s, QueryZoom15);
    assert !Intersects(BoundingBox(0.0, 0.0, 22.5, 45.0), QueryZoom15);
    assert !Intersects(BoundingBox(22.5, 45.0, 45.0, 90.0), QueryZoom15);
    assert Intersects(BoundingBox(0.0, 45.0, 22.5, 90.0), QueryZoom15);
    assert !Intersects(BoundingBox(22.5, 0.0, 45.0, 45.0), QueryZoom15);
  }

  lemma Zoom15Round03(f: seq<Cell>)
    requires f == [Cell(28, BoundingBox(0.0, 0.0, 45.0, 90.0))]
    ensures Step(f, QueryZoom15)
            == [Cell(114, BoundingBox(0.0, 45.0, 22.5, 90.0))]
  {
    SplitCell28(f[0]);
    Zoom15Round03Filter(Children(f[0]));
    RoundOfOne(f, QueryZoom15, Survivors(Children(f[0]), QueryZoom15));
  }

  lemma Zoom15Level03(w: BoundingBox, q: BoundingBox)
    requires w == World && q == QueryZoom15
    ensures SearchCells(w, q, 3) == [Cell(114, BoundingBox(0.0, 45.0, 22.5, 90.0))]
  {
    Zoom15Level02(w, q);
    Zoom15Round03(SearchCells(w, q, 2));
  }

  lemma SplitCell114(c: Cell)
    requires c == Cell(114, BoundingBox(0.0, 45.0, 22.5, 90.0))
    ensures Children(c) == [
      Cell(456, BoundingBox(0.0, 45.0, 11.25, 67.5)),
      Cell(459, BoundingBox(11.25, 67.5, 22.5, 90.0)),
      Cell(458, BoundingBox(0.0, 67.5, 11.25, 90.0)),
      Cell(457, BoundingBox(11.25, 45.0, 22.5, 67.5))]
  {
    assert Child(c, BottomLeft)
        == Cell(456, BoundingBox(0.0, 45.0, 11.25, 67.5));
    assert Child(c, TopRight)
        == Cell(459, BoundingBox(11.25, 67.5, 22.5, 90.0));
    assert Child(c, BottomRight)
        == Cell(458, BoundingBox(0.0, 67.5, 11.25, 90.0));
    assert Child(c, TopLeft)
        == Cell(457, BoundingBox(11.25, 45.0, 22.5, 67.5));
  }

  lemma Zoom15Round04Filter(s: seq<Cell>)
    requires s == [
      Cell(456, BoundingBox(0.0, 45.0, 11.25, 67.5)),
      Cell(459, BoundingBox(11.25, 67.5, 22.5, 90.0)),
      Cell(458, BoundingBox(0.0, 67.5, 11.25, 90.0)),
      Cell(457, BoundingBox(11.25, 45.0, 22.5, 67.5))]
    ensures Survivors(s, QueryZoom15)
            == [Cell(459, BoundingBox(11.25, 67.5, 22.5, 90.0))]
  {
    SurvivorsOfFour(s, QueryZoom15);
    assert !Intersects(BoundingBox(0.0, 45.0, 11.25, 67.5), QueryZoom15);
    assert Intersects(BoundingBox(11.25, 67.5, 22.5, 90.0), QueryZoom15);
    assert !Intersects(BoundingBox(0.0, 67.5, 11.25, 90.0), QueryZoom15);
    assert !Intersects(BoundingBox(11.25, 45.0, 22.5, 67.5), QueryZoom15);
  }

  lemma Zoom15Round04(f: seq<Cell>)
    requires f == [Cell(114, BoundingBox(0.0, 45.0, 22.5, 90.0))]
    ensures Step(f, QueryZoom15)
            == [Cell(459, BoundingBox(11.25, 67.5, 22.5, 90.0))]
  {
    SplitCell114(f[0]);
    Zoom15Round04Filter(Children(f[0]));
    RoundOfOne(f, QueryZoom15, Survivors(Children(f[0]), QueryZoom15));
  }

  lemma Zoom15Level04(w: BoundingBox, q: BoundingBox)
    requires w == World && q == QueryZoom15
    ensures SearchCells(w, q, 4) == [Cell(459, BoundingBox(11.25, 67.5, 22.5, 90.0))]
  {
    Zoom15Level03(w, q);
    Zoom15Round04(SearchCells(w, q, 3));
  }

  lemma SplitCell459(c: Cell)
    requires c == Cell(459, BoundingBox(11.25, 67.5, 22.5, 90.0))
    ensures Children(c) == [
      Cell(1836, BoundingBox(11.25, 67.5, 16.875, 78.75)),
      Cell(1839, BoundingBox(16.875, 78.75, 22.5, 90.0)),
      Cell(1838, BoundingBox(11.25, 78.75, 16.875, 90.0)),
      Cell(1837, BoundingBox(16.875, 67.5, 22.5, 78.75))]
  {
    assert Child(c, BottomLeft)
        == Cell(1836, BoundingBox(11.25, 67.5, 16.875, 78.75));
    assert Child(c, TopRight)
        == Cell(1839, BoundingBox(16.875, 78.75, 22.5, 90.0));
    assert Child(c, BottomRight)
        == Cell(1838, BoundingBox(11.25, 78.75, 16.875, 90.0));
    assert Child(c, TopLeft)
        == Cell(1837, BoundingBox(16.875, 67.5, 22.5, 78.75));
  }

  lemma Zoom15Round05Filter(s: seq<Cell>)
    requires s == [
      Cell(1836, BoundingBox(11.25, 67.5, 16.875, 78.75)),
      Cell(1839, BoundingBox(16.875, 78.75, 22.5, 90.0)),
      Cell(1838, BoundingBox(11.25, 78.75, 16.875, 90.0)),
      Cell(1837, BoundingBox(16.875, 67.5, 22.5, 78.75))]
    ensures Survivors(s, QueryZoom15)
            == [Cell(1836, BoundingBox(11.25, 67.5, 16.875, 78.75))]
  {
    SurvivorsOfFour(s, QueryZoom15);
    assert Intersects(BoundingBox(11.25, 67.5, 16.875, 78.75), QueryZoom15);
    assert !Intersects(BoundingBox(16.875, 78.75, 22.5, 90.0), QueryZoom15);
    assert !Intersects(BoundingBox(11.25, 78.75, 16.875, 90.0), QueryZoom15);
    assert !Intersects(BoundingBox(16.875, 67.5, 22.5, 78.75), QueryZoom15);
  }

  lemma Zoom15Round05(f: seq<Cell>)
    requires f == [Cell(459, BoundingBox(11.25, 67.5, 22.5, 90.0))]
    ensures Step(f, QueryZoom15)
            == [Cell(1836, BoundingBox(11.25, 67.5, 16.875, 78.75))]
  {
    SplitCell459(f[0]);
    Zoom15Round05Filter(Children(f[0]));
    RoundOfOne(f, QueryZoom15, Survivors(Children(f[0]), QueryZoom15));
  }

  lemma Zoom15Level05(w: BoundingBox, q: BoundingBox)
    requires w == World && q == QueryZoom15
    ensures SearchCells(w, q, 5) == [Cell(1836, BoundingBox(11.25, 67.5, 16.875, 78.75))]
  {
    Zoom15Level04(w, q);
    Zoom15Round05(SearchCells(w, q, 4));
  }

  lemma SplitCell1836(c: Cell)
    requires c == Cell(1836, BoundingBox(11.25, 67.5, 16.875, 78.75))
    ensures Children(c) == [
      Cell(7344, BoundingBox(11.25, 67.5, 14.0625, 73.125)),
      Cell(7347, BoundingBox(14.0625, 73.125, 16.875, 78.75)),
      Cell(7346, BoundingBox(11.25, 73.125, 14.0625, 78.75)),
      Cell(7345, BoundingBox(14.0625, 67.5, 16.875, 73.125))]
  {
    assert Child(c, BottomLeft)
        == Cell(7344, BoundingBox(11.25, 67.5, 14.0625, 73.125));
    assert Child(c, TopRight)
        == Cell(7347, BoundingBox(14.0625, 73.125, 16.875, 78.75));
    assert Child(c, BottomRight)
        == Cell(7346, BoundingBox(11.25, 73.125, 14.0625, 78.75));
    assert Child(c, TopLeft)
        == Cell(7345, BoundingBox(14.0625, 67.5, 16.875, 73.125));
  }

  lemma Zoom15Round06Filter(s: seq<Cell>)
    requires s == [
      Cell(7344, BoundingBox(11.25, 67.5, 14.0625, 73.125)),
      Cell(7347, BoundingBox(14.0625, 73.125, 16.875, 78.75)),
      Cell(7346, BoundingBox(11.25, 73.125, 14.0625, 78.75)),
      Cell(7345, BoundingBox(14.0625, 67.5, 16.875, 73.125))]
    ensures Survivors(s, QueryZoom15)
            == [Cell(7346, BoundingBox(11.25, 73.125, 14.0625, 78.75))]
  {
    SurvivorsOfFour(s, QueryZoom15);
    assert !Intersects(BoundingBox(11.25, 67.5, 14.0625, 73.125), QueryZoom15);
    assert !Intersects(BoundingBox(14.0625, 73.125, 16.875, 78.75), QueryZoom15);
    assert Intersects(BoundingBox(11.25, 73.125, 14.0625, 78.75), QueryZoom15);
    assert !Intersects(BoundingBox(14.0625, 67.5, 16.875, 73.125), QueryZoom15);
  }

  lemma Zoom15Round06(f: seq<Cell>)
    requires f == [Cell(1836, BoundingBox(11.25, 67.5, 16.875, 78.75))]
    ensures Step(f, QueryZoom15)
            == [Cell(7346, BoundingBox(11.25, 73.125, 14.0625, 78.75))]
  {
    SplitCell1836(f[0]);
    Zoom15Round06Filter(Children(f[0]));
    RoundOfOne(f, QueryZoom15, Survivors(Children(f[0]), QueryZoom15));
  }

  lemma Zoom15Level06(w: BoundingBox, q: BoundingBox)
    requires w == World && q == QueryZoom15
    ensures SearchCells(w, q, 6) == [Cell(7346, BoundingBox(11.25, 73.125, 14.0625, 78.75))]
  {
    Zoom15Level05(w, q);
    Zoom15Round06(SearchCells(w, q, 5));
  }

  lemma SplitCell7346(c: Cell)
    requires c == Cell(7346, BoundingBox(11.25, 73.125, 14.0625, 78.75))
    ensures Children(c) == [
      Cell(29384, BoundingBox(11.25, 73.125, 12.65625, 75.9375)),
      Cell(29387, BoundingBox(12.65625, 75.9375, 14.0625, 78.75)),
      Cell(29386, BoundingBox(11.25, 75.9375, 12.65625, 78.75)),
      Cell(29385, BoundingBox(12.65625, 73.125, 14.0625, 75.9375))]
  {
    assert Child(c, BottomLeft)
        == Cell(29384, BoundingBox(11.25, 73.125, 12.65625, 75.9375));
    assert Child(c, TopRight)
        == Cell(29387, BoundingBox(12.65625, 75.9375, 14.0625, 78.75));
    assert Child(c, BottomRight)
        == Cell(29386, BoundingBox(11.25, 75.9375, 12.65625, 78.75));
    assert Child(c, TopLeft)
        == Cell(29385, BoundingBox(12.65625, 73.125, 14.0625, 75.9375));
  }

  lemma Zoom15Round07Filter(s: seq<Cell>)
    requires s == [
      Cell(29384, BoundingBox(11.25, 73.125, 12.65625, 75.9375)),
      Cell(29387, BoundingBox(12.65625, 75.9375, 14.0625, 78.75)),
      Cell(29386, BoundingBox(11.25, 75.9375, 12.65625, 78.75)),
      Cell(29385, BoundingBox(12.65625, 73.125, 14.0625, 75.9375))]
    ensures Survivors(s, QueryZoom15)
            == [Cell(29387, BoundingBox(12.65625, 75.9375, 14.0625, 78.75))]
  {
    SurvivorsOfFour(s, QueryZoom15);
    assert !Intersects(BoundingBox(11.25, 73.125, 12.65625, 75.9375), QueryZoom15);
    assert Intersects(BoundingBox(12.65625, 75.9375, 14.0625, 78.75), QueryZoom15);
    assert !Intersects(BoundingBox(11.25, 75.9375, 12.65625, 78.75), QueryZoom15);
    assert !Intersects(BoundingBox(12.65625, 73.125, 14.0625, 75.9375), QueryZoom15);
  }

  lemma Zoom15Round07(f: seq<Cell>)
    requires f == [Cell(7346, BoundingBox(11.25, 73.125, 14.0625, 78.75))]
    ensures Step(f, QueryZoom15)
            == [Cell(29387, BoundingBox(12.65625, 75.9375, 14.0625, 78.75))]
  {
    SplitCell7346(f[0]);
    Zoom15Round07Filter(Children(f[0]));
    RoundOfOne(f, QueryZoom15, Survivors(Children(f[0]), QueryZoom15));
  }

  lemma Zoom15Level07(w: BoundingBox, q: BoundingBox)
    requires w == World && q == QueryZoom15
    ensures SearchCells(w, q, 7) == [Cell(29387, BoundingBox(12.65625, 75.9375, 14.0625, 78.75))]
  {
    Zoom15Level06(w, q);
    Zoom15Round07(SearchCells(w, q, 6));
  }

  lemma SplitCell29387(c: Cell)
    requires c == Cell(29387, BoundingBox(12.65625, 75.9375, 14.0625, 78.75))
    ensures Children(c) == [
      Cell(117548, BoundingBox(12.65625, 75.9375, 13.359375, 77.34375)),
      Cell(117551, BoundingBox(13.359375, 77.34375, 14.0625, 78.75)),
      Cell(117550, BoundingBox(12.65625, 77.34375, 13.359375, 78.75)),
      Cell(117549, BoundingBox(13.359375, 75.9375, 14.0625, 77.34375))]
  {
    assert Child(c, BottomLeft)
        == Cell(117548, BoundingBox(12.65625, 75.9375, 13.359375, 77.34375));
    assert Child(c, TopRight)
        == Cell(117551, BoundingBox(13.359375, 77.34375, 14.0625, 78.75));
    assert Child(c, BottomRight)
        == Cell(117550, BoundingBox(12.65625, 77.34375, 13.359375, 78.75));
    assert Child(c, TopLeft)
        == Cell(117549, BoundingBox(13.359375, 75.9375, 14.0625, 77.34375));
  }

  lemma Zoom15Round08Filter(s: seq<Cell>)
    requires s == [
      Cell(117548, BoundingBox(12.65625, 75.9375, 13.359375, 77.34375)),
      Cell(117551, BoundingBox(13.359375, 77.34375, 14.0625, 78.75)),
      Cell(117550, BoundingBox(12.65625, 77.34375, 13.359375, 78.75)),
      Cell(117549, BoundingBox(13.359375, 75.9375, 14.0625, 77.34375))]
    ensures Survivors(s, QueryZoom15)
            == [Cell(117550, BoundingBox(12.65625, 77.34375, 13.359375, 78.75))]
  {
    SurvivorsOfFour(s, QueryZoom15);
    assert !Intersects(BoundingBox(12.65625, 75.9375, 13.359375, 77.34375), QueryZoom15);
    assert !Intersects(BoundingBox(13.359375, 77.34375, 14.0625, 78.75), QueryZoom15);
    assert Intersects(BoundingBox(12.65625, 77.34375, 13.359375, 78.75), QueryZoom15);
    assert !Intersects(BoundingBox(13.359375, 75.9375, 14.0625, 77.34375), QueryZoom15);
  }

  lemma Zoom15Round08(f: seq<Cell>)
    requires f == [Cell(29387, BoundingBox(12.65625, 75.9375, 14.0625, 78.75))]
    ensures Step(f, QueryZoom15)
            == [Cell(117550, BoundingBox(12.65625, 77.34375, 13.359375, 78.75))]
  {
    SplitCell29387(f[0]);
    Zoom15Round08Filter(Children(f[0]));
    RoundOfOne(f, QueryZoom15, Survivors(Children(f[0]), QueryZoom15));
  }

  lemma Zoom15Level08(w: BoundingBox, q: BoundingBox)
    requires w == World && q == QueryZoom15
    ensures SearchCells(w, q, 8) == [Cell(117550, BoundingBox(12.65625, 77.34375, 13.359375, 78.75))]
  {
    Zoom15Level07(w, q);
    Zoom15Round08(SearchCells(w, q, 7));
  }

  lemma SplitCell117550(c: Cell)
    requires c == Cell(117550, BoundingBox(12.65625, 77.34375, 13.359375, 78.75))
    ensures Children(c) == [
      Cell(470200, BoundingBox(12.65625, 77.34375, 13.0078125, 78.046875)),
      Cell(470203, BoundingBox(13.0078125, 78.046875, 13.359375, 78.75)),
      Cell(470202, BoundingBox(12.65625, 78.046875, 13.0078125, 78.75)),
      Cell(470201, BoundingBox(13.0078125, 77.34375, 13.359375, 78.046875))]
  {
    assert Child(c, BottomLeft)
        == Cell(470200, BoundingBox(12.65625, 77.34375, 13.0078125, 78.046875));
    assert Child(c, TopRight)
        == Cell(470203, BoundingBox(13.0078125, 78.046875, 13.359375, 78.75));
    assert Child(c, BottomRight)
        == Cell(470202, BoundingBox(12.65625, 78.046875, 13.0078125, 78.75));
    assert Child(c, TopLeft)
        == Cell(470201, BoundingBox(13.0078125, 77.34375, 13.359375, 78.046875));
  }

  lemma Zoom15Round09Filter(s: seq<Cell>)
    requires s == [
      Cell(470200, BoundingBox(12.65625, 77.34375, 13.0078125, 78.046875)),
      Cell(470203, BoundingBox(13.0078125, 78.046875, 13.359375, 78.75)),
      Cell(470202, BoundingBox(12.65625, 78.046875, 13.0078125, 78.75)),
      Cell(470201, BoundingBox(13.0078125, 77.34375, 13.359375, 78.046875))]
    ensures Survivors(s, QueryZoom15)
            == [Cell(470200, BoundingBox(12.65625, 77.34375, 13.0078125, 78.046875))]
  {
    SurvivorsOfFour(s, QueryZoom15);
    assert Intersects(BoundingBox(12.65625, 77.34375, 13.0078125, 78.046875), QueryZoom15);
    assert !Intersects(BoundingBox(13.0078125, 78.046875, 13.359375, 78.75), QueryZoom15);
    assert !Intersects(BoundingBox(12.65625, 78.046875, 13.0078125, 78.75), QueryZoom15);
    assert !Intersects(BoundingBox(13.0078125, 77.34375, 13.359375, 78.046875), QueryZoom15);
  }

  lemma Zoom15Round09(f: seq<Cell>)
    requires f == [Cell(117550, BoundingBox(12.65625, 77.34375, 13.359375, 78.75))]
    ensures Step(f, QueryZoom15)
            == [Cell(470200, BoundingBox(12.65625, 77.34375, 13.0078125, 78.046875))]
  {
    SplitCell117550(f[0]);
    Zoom15Round09Filter(Children(f[0]));
    RoundOfOne(f, QueryZoom15, Survivors(Children(f[0]), QueryZoom15));
  }

  lemma Zoom15Level09(w: BoundingBox, q: BoundingBox)
    requires w == World && q == QueryZoom15
    ensures SearchCells(w, q, 9) == [Cell(470200, BoundingBox(12.65625, 77.34375, 13.0078125, 78.046875))]
  {
    Zoom15Level08(w, q);
    Zoom15Round09(SearchCells(w, q, 8));
  }

  lemma SplitCell470200(c: Cell)
    requires c == Cell(470200, BoundingBox(12.65625, 77.34375, 13.0078125, 78.046875))
    ensures Children(c) == [
      Cell(1880800, BoundingBox(12.65625, 77.34375, 12.83203125, 77.6953125)),
      Cell(1880803, BoundingBox(12.83203125, 77.6953125, 13.0078125, 78.046875)),
      Cell(1880802, BoundingBox(12.65625, 77.6953125, 12.83203125, 78.046875)),
      Cell(1880801, BoundingBox(12.83203125, 77.34375, 13.0078125, 77.6953125))]
  {
    assert Child(c, BottomLeft)
        == Cell(1880800, BoundingBox(12.65625, 77.34375, 12.83203125, 77.6953125));
    assert Child(c, TopRight)
        == Cell(1880803, BoundingBox(12.83203125, 77.6953125, 13.0078125, 78.046875));
    assert Child(c, BottomRight)
        == Cell(1880802, BoundingBox(12.65625, 77.6953125, 12.83203125, 78.046875));
    assert Child(c, TopLeft)
        == Cell(1880801, BoundingBox(12.83203125, 77.34375, 13.0078125, 77.6953125));
  }

  lemma Zoom15Round10Filter(s: seq<Cell>)
    requires s == [
      Cell(1880800, BoundingBox(12.65625, 77.34375, 12.83203125, 77.6953125)),
      Cell(1880803, BoundingBox(12.83203125, 77.6953125, 13.0078125, 78.046875)),
      Cell(1880802, BoundingBox(12.65625, 77.6953125, 12.83203125, 78.046875)),
      Cell(1880801, BoundingBox(12.83203125, 77.34375, 13.0078125, 77.6953125))]
    ensures Survivors(s, QueryZoom15)
            == [Cell(1880801, BoundingBox(12.83203125, 77.34375, 13.0078125, 77.6953125))]
  {
    SurvivorsOfFour(s, QueryZoom15);
    assert !Intersects(BoundingBox(12.65625, 77.34375, 12.83203125, 77.6953125), QueryZoom15);
    assert !Intersects(BoundingBox(12.83203125, 77.6953125, 13.0078125, 78.046875), QueryZoom15);
    assert !Intersects(BoundingBox(12.65625, 77.6953125, 12.83203125, 78.046875), QueryZoom15);
    assert Intersects(BoundingBox(12.83203125, 77.34375, 13.0078125, 77.6953125), QueryZoom15);
  }

  lemma Zoom15Round10(f: seq<Cell>)
    requires f == [Cell(470200, BoundingBox(12.65625, 77.34375, 13.0078125, 78.046875))]
    ensures Step(f, QueryZoom15)
            == [Cell(1880801, BoundingBox(12.83203125, 77.34375, 13.0078125, 77.6953125))]
  {
    SplitCell470200(f[0]);
    Zoom15Round10Filter(Children(f[0]));
    RoundOfOne(f, QueryZoom15, Survivors(Children(f[0]), QueryZoom15));
  }

  lemma Zoom15Level10(w: BoundingBox, q: BoundingBox)
    requires w == World && q == QueryZoom15
    ensures SearchCells(w, q, 10) == [
      Cell(1880801, BoundingBox(12.83203125, 77.34375, 13.0078125, 77.6953125))]
  {
    Zoom15Level09(w, q);
    Zoom15Round10(SearchCells(w, q, 9));
  }

  lemma SplitCell1880801(c: Cell)
    requires c == Cell(1880801, BoundingBox(12.83203125, 77.34375, 13.0078125, 77.6953125))
    ensures Children(c) == [
      Cell(7523204, BoundingBox(12.83203125, 77.34375, 12.919921875, 77.51953125)),
      Cell(7523207, BoundingBox(12.919921875, 77.51953125, 13.0078125, 77.6953125)),
      Cell(7523206, BoundingBox(12.83203125, 77.51953125, 12.919921875, 77.6953125)),
      Cell(7523205, BoundingBox(12.919921875, 77.34375, 13.0078125, 77.51953125))]
  {
    assert Child(c, BottomLeft)
        == Cell(7523204, BoundingBox(12.83203125, 77.34375, 12.919921875, 77.51953125));
    assert Child(c, TopRight)
        == Cell(7523207, BoundingBox(12.919921875, 77.51953125, 13.0078125, 77.6953125));
    assert Child(c, BottomRight)
        == Cell(7523206, BoundingBox(12.83203125, 77.51953125, 12.919921875, 77.6953125));
    assert Child(c, TopLeft)
        == Cell(7523205, BoundingBox(12.919921875, 77.34375, 13.0078125, 77.51953125));
  }

  lemma Zoom15Round11Filter(s: seq<Cell>)
    requires s == [
      Cell(7523204, BoundingBox(12.83203125, 77.34375, 12.919921875, 77.51953125)),
      Cell(7523207, BoundingBox(12.919921875, 77.51953125, 13.0078125, 77.6953125)),
      Cell(7523206, BoundingBox(12.83203125, 77.51953125, 12.919921875, 77.6953125)),
      Cell(7523205, BoundingBox(12.919921875, 77.34375, 13.0078125, 77.51953125))]
    ensures Survivors(s, QueryZoom15)
            == [Cell(7523207, BoundingBox(12.919921875, 77.51953125, 13.0078125, 77.6953125))]
  {
    SurvivorsOfFour(s, QueryZoom15);
    assert !Intersects(BoundingBox(12.83203125, 77.34375, 12.919921875, 77.51953125), QueryZoom15);
    assert Intersects(BoundingBox(12.919921875, 77.51953125, 13.0078125, 77.6953125), QueryZoom15);
    assert !Intersects(BoundingBox(12.83203125, 77.51953125, 12.919921875, 77.6953125), QueryZoom15);
    assert !Intersects(BoundingBox(12.919921875, 77.34375, 13.0078125, 77.51953125), QueryZoom15);
  }

  lemma Zoom15Round11(f: seq<Cell>)
    requires f == [Cell(1880801, BoundingBox(12.83203125, 77.34375, 13.0078125, 77.6953125))]
    ensures Step(f, QueryZoom15)
            == [Cell(7523207, BoundingBox(12.919921875, 77.51953125, 13.0078125, 77.6953125))]
  {
    SplitCell1880801(f[0]);
    Zoom15Round11Filter(Children(f[0]));
    RoundOfOne(f, QueryZoom15, Survivors(Children(f[0]), QueryZoom15));
  }

  lemma Zoom15Level11(w: BoundingBox, q: BoundingBox)
    requires w == World && q == QueryZoom15
    ensures SearchCells(w, q, 11) == [
      Cell(7523207, BoundingBox(12.919921875, 77.51953125, 13.0078125, 77.6953125))]
  {
    Zoom15Level10(w, q);
    Zoom15Round11(SearchCells(w, q, 10));
  }

  lemma SplitCell7523207(c: Cell)
    requires c == Cell(7523207, BoundingBox(12.919921875, 77.51953125, 13.0078125, 77.6953125))
    ensures Children(c) == [
      Cell(30092828, BoundingBox(12.919921875, 77.51953125, 12.9638671875, 77.607421875)),
      Cell(30092831, BoundingBox(12.9638671875, 77.607421875, 13.0078125, 77.6953125)),
      Cell(30092830, BoundingBox(12.919921875, 77.607421875, 12.9638671875, 77.6953125)),
      Cell(30092829, BoundingBox(12.9638671875, 77.51953125, 13.0078125, 77.607421875))]
  {
    assert Child(c, BottomLeft)
        == Cell(30092828, BoundingBox(12.919921875, 77.51953125, 12.9638671875, 77.607421875));
    assert Child(c, TopRight)
        == Cell(30092831, BoundingBox(12.9638671875, 77.607421875, 13.0078125, 77.6953125));
    assert Child(c, BottomRight)
        == Cell(30092830, BoundingBox(12.919921875, 77.607421875, 12.9638671875, 77.6953125));
    assert Child(c, TopLeft)
        == Cell(30092829, BoundingBox(12.9638671875, 77.51953125, 13.0078125, 77.607421875));
  }

  lemma Zoom15Round12Filter(s: seq<Cell>)
    requires s == [
      Cell(30092828, BoundingBox(12.919921875, 77.51953125, 12.9638671875, 77.607421875)),
      Cell(30092831, BoundingBox(12.9638671875, 77.607421875, 13.0078125, 77.6953125)),
      Cell(30092830, BoundingBox(12.919921875, 77.607421875, 12.9638671875, 77.6953125)),
      Cell(30092829, BoundingBox(12.9638671875, 77.51953125, 13.0078125, 77.607421875))]
    ensures Survivors(s, QueryZoom15)
            == [Cell(30092830, BoundingBox(12.919921875, 77.607421875, 12.9638671875, 77.6953125))]
  {
    SurvivorsOfFour(s, QueryZoom15);
    assert !Intersects(BoundingBox(12.919921875, 77.51953125, 12.9638671875, 77.607421875), QueryZoom15);
    assert !Intersects(BoundingBox(12.9638671875, 77.607421875, 13.0078125, 77.6953125), QueryZoom15);
    assert Intersects(BoundingBox(12.919921875, 77.607421875, 12.9638671875, 77.6953125), QueryZoom15);
    assert !Intersects(BoundingBox(12.9638671875, 77.51953125, 13.0078125, 77.607421875), QueryZoom15);
  }

  lemma Zoom15Round12(f: seq<Cell>)
    requires f == [Cell(7523207, BoundingBox(12.919921875, 77.51953125, 13.0078125, 77.6953125))]
    ensures Step(f, QueryZoom15)
            == [Cell(30092830, BoundingBox(12.919921875, 77.607421875, 12.9638671875, 77.6953125))]
  {
    SplitCell7523207(f[0]);
    Zoom15Round12Filter(Children(f[0]));
    RoundOfOne(f, QueryZoom15, Survivors(Children(f[0]), QueryZoom15));
  }

  lemma Zoom15Level12(w: BoundingBox, q: BoundingBox)
    requires w == World && q == QueryZoom15
    ensures SearchCells(w, q, 12) == [
      Cell(30092830, BoundingBox(12.919921875, 77.607421875, 12.9638671875, 77.6953125))]
  {
    Zoom15Level11(w, q);
    Zoom15Round12(SearchCells(w, q, 11));
  }

  lemma SplitCell30092830(c: Cell)
    requires c == Cell(30092830, BoundingBox(12.919921875, 77.607421875, 12.9638671875, 77.6953125))
    ensures Children(c) == [
      Cell(120371320, BoundingBox(12.919921875, 77.607421875, 12.94189453125, 77.6513671875)),
      Cell(120371323, BoundingBox(12.94189453125, 77.6513671875, 12.9638671875, 77.6953125)),
      Cell(120371322, BoundingBox(12.919921875, 77.6513671875, 12.94189453125, 77.6953125)),
      Cell(120371321, BoundingBox(12.94189453125, 77.607421875, 12.9638671875, 77.6513671875))]
  {
    assert Child(c, BottomLeft)
        == Cell(120371320, BoundingBox(12.919921875, 77.607421875, 12.94189453125, 77.6513671875));
    assert Child(c, TopRight)
        == Cell(120371323, BoundingBox(12.94189453125, 77.6513671875, 12.9638671875, 77.6953125));
    assert Child(c, BottomRight)
        == Cell(120371322, BoundingBox(12.919921875, 77.6513671875, 12.94189453125, 77.6953125));
    assert Child(c, TopLeft)
        == Cell(120371321, BoundingBox(12.94189453125, 77.607421875, 12.9638671875, 77.6513671875));
  }

  lemma Zoom15Round13Filter(s: seq<Cell>)
    requires s == [
      Cell(120371320, BoundingBox(12.919921875, 77.607421875, 12.94189453125, 77.6513671875)),
      Cell(120371323, BoundingBox(12.94189453125, 77.6513671875, 12.9638671875, 77.6953125)),
      Cell(120371322, BoundingBox(12.919921875, 77.6513671875, 12.94189453125, 77.6953125)),
      Cell(120371321, BoundingBox(12.94189453125, 77.607421875, 12.9638671875, 77.6513671875))]
    ensures Survivors(s, QueryZoom15)
            == [Cell(120371322, BoundingBox(12.919921875, 77.6513671875, 12.94189453125, 77.6953125))]
  {
    SurvivorsOfFour(s, QueryZoom15);
    assert !Intersects(BoundingBox(12.919921875, 77.607421875, 12.94189453125, 77.6513671875), QueryZoom15);
    assert !Intersects(BoundingBox(12.94189453125, 77.6513671875, 12.9638671875, 77.6953125), QueryZoom15);
    assert Intersects(BoundingBox(12.919921875, 77.6513671875, 12.94189453125, 77.6953125), QueryZoom15);
    assert !Intersects(BoundingBox(12.94189453125, 77.607421875, 12.9638671875, 77.6513671875), QueryZoom15);
  }

  lemma Zoom15Round13(f: seq<Cell>)
    requires f == [Cell(30092830, BoundingBox(12.919921875, 77.607421875, 12.9638671875, 77.6953125))]
    ensures Step(f, QueryZoom15)
            == [Cell(120371322, BoundingBox(12.919921875, 77.6513671875, 12.94189453125, 77.6953125))]
  {
    SplitCell30092830(f[0]);
    Zoom15Round13Filter(Children(f[0]));
    RoundOfOne(f, QueryZoom15, Survivors(Children(f[0]), QueryZoom15));
  }

  lemma Zoom15Level13(w: BoundingBox, q: BoundingBox)
    requires w == World && q == QueryZoom15
    ensures SearchCells(w, q, 13) == [
      Cell(120371322, BoundingBox(12.919921875, 77.6513671875, 12.94189453125, 77.6953125))]
  {
    Zoom15Level12(w, q);
    Zoom15Round13(SearchCells(w, q, 12));
  }

  lemma SplitCell120371322(c: Cell)
    requires c == Cell(120371322, BoundingBox(12.919921875, 77.6513671875, 12.94189453125, 77.6953125))
    ensures Children(c) == [
      Cell(481485288, BoundingBox(12.919921875, 77.6513671875, 12.930908203125, 77.67333984375)),
      Cell(481485291, BoundingBox(12.930908203125, 77.67333984375, 12.94189453125, 77.6953125)),
      Cell(481485290, BoundingBox(12.919921875, 77.67333984375, 12.930908203125, 77.6953125)),
      Cell(481485289, BoundingBox(12.930908203125, 77.6513671875, 12.94189453125, 77.67333984375))]
  {
    assert Child(c, BottomLeft)
        == Cell(481485288, BoundingBox(12.919921875, 77.6513671875, 12.930908203125, 77.67333984375));
    assert Child(c, TopRight)
        == Cell(481485291, BoundingBox(12.930908203125, 77.67333984375, 12.94189453125, 77.6953125));
    assert Child(c, BottomRight)
        == Cell(481485290, BoundingBox(12.919921875, 77.67333984375, 12.930908203125, 77.6953125));
    assert Child(c, TopLeft)
        == Cell(481485289, BoundingBox(12.930908203125, 77.6513671875, 12.94189453125, 77.67333984375));
  }

  lemma Zoom15Round14Filter(s: seq<Cell>)
    requires s == [
      Cell(481485288, BoundingBox(12.919921875, 77.6513671875, 12.930908203125, 77.67333984375)),
      Cell(481485291, BoundingBox(12.930908203125, 77.67333984375, 12.94189453125, 77.6953125)),
      Cell(481485290, BoundingBox(12.919921875, 77.67333984375, 12.930908203125, 77.6953125)),
      Cell(481485289, BoundingBox(12.930908203125, 77.6513671875, 12.94189453125, 77.67333984375))]
    ensures Survivors(s, QueryZoom15)
            == [
      Cell(481485288, BoundingBox(12.919921875, 77.6513671875, 12.930908203125, 77.67333984375)),
      Cell(481485290, BoundingBox(12.919921875, 77.67333984375, 12.930908203125, 77.6953125))]
  {
    SurvivorsOfFour(s, QueryZoom15);
    assert Intersects(BoundingBox(12.919921875, 77.6513671875, 12.930908203125, 77.67333984375), QueryZoom15);
    assert !Intersects(BoundingBox(12.930908203125, 77.67333984375, 12.94189453125, 77.6953125), QueryZoom15);
    assert Intersects(BoundingBox(12.919921875, 77.67333984375, 12.930908203125, 77.6953125), QueryZoom15);
    assert !Intersects(BoundingBox(12.930908203125, 77.6513671875, 12.94189453125, 77.67333984375), QueryZoom15);
  }

  lemma Zoom15Round14(f: seq<Cell>)
    requires f == [Cell(120371322, BoundingBox(12.919921875, 77.6513671875, 12.94189453125, 77.6953125))]
    ensures Step(f, QueryZoom15)
            == [
      Cell(481485288, BoundingBox(12.919921875, 77.6513671875, 12.930908203125, 77.67333984375)),
      Cell(481485290, BoundingBox(12.919921875, 77.67333984375, 12.930908203125, 77.6953125))]
  {
    SplitCell120371322(f[0]);
    Zoom15Round14Filter(Children(f[0]));
    RoundOfOne(f, QueryZoom15, Survivors(Children(f[0]), QueryZoom15));
  }

  lemma Zoom15Level14(w: BoundingBox, q: BoundingBox)
    requires w == World && q == QueryZoom15
    ensures SearchCells(w, q, 14) == [
      Cell(481485288, BoundingBox(12.919921875, 77.6513671875, 12.930908203125, 77.67333984375)),
      Cell(481485290, BoundingBox(12.919921875, 77.67333984375, 12.930908203125, 77.6953125))]
  {
    Zoom15Level13(w, q);
    Zoom15Round14(SearchCells(w, q, 13));
  }

  lemma SplitCell481485288(c: Cell)
    requires c == Cell(481485288, BoundingBox(12.919921875, 77.6513671875, 12.930908203125, 77.67333984375))
    ensures Children(c) == [
      Cell(1925941152, BoundingBox(12.919921875, 77.6513671875, 12.9254150390625, 77.662353515625)),
      Cell(1925941155, BoundingBox(12.9254150390625, 77.662353515625, 12.930908203125, 77.67333984375)),
      Cell(1925941154, BoundingBox(12.919921875, 77.662353515625, 12.9254150390625, 77.67333984375)),
      Cell(1925941153, BoundingBox(12.9254150390625, 77.6513671875, 12.930908203125, 77.662353515625))]
  {
    assert Child(c, BottomLeft)
        == Cell(1925941152, BoundingBox(12.919921875, 77.6513671875, 12.9254150390625, 77.662353515625));
    assert Child(c, TopRight)
        == Cell(1925941155, BoundingBox(12.9254150390625, 77.662353515625, 12.930908203125, 77.67333984375));
    assert Child(c, BottomRight)
        == Cell(1925941154, BoundingBox(12.919921875, 77.662353515625, 12.9254150390625, 77.67333984375));
    assert Child(c, TopLeft)
        == Cell(1925941153, BoundingBox(12.9254150390625, 77.6513671875, 12.930908203125, 77.662353515625));
  }

  lemma Zoom15Round15aFilter(s: seq<Cell>)
    requires s == [
      Cell(1925941152, BoundingBox(12.919921875, 77.6513671875, 12.9254150390625, 77.662353515625)),
      Cell(1925941155, BoundingBox(12.9254150390625, 77.662353515625, 12.930908203125, 77.67333984375)),
      Cell(1925941154, BoundingBox(12.919921875, 77.662353515625, 12.9254150390625, 77.67333984375)),
      Cell(1925941153, BoundingBox(12.9254150390625, 77.6513671875, 12.930908203125, 77.662353515625))]
    ensures Survivors(s, QueryZoom15)
            == [
      Cell(1925941155, BoundingBox(12.9254150390625, 77.662353515625, 12.930908203125, 77.67333984375)),
      Cell(1925941154, BoundingBox(12.919921875, 77.662353515625, 12.9254150390625, 77.67333984375))]
  {
    SurvivorsOfFour(s, QueryZoom15);
    assert !Intersects(BoundingBox(12.919921875, 77.6513671875, 12.9254150390625, 77.662353515625), QueryZoom15);
    assert Intersects(BoundingBox(12.9254150390625, 77.662353515625, 12.930908203125, 77.67333984375), QueryZoom15);
    assert Intersects(BoundingBox(12.919921875, 77.662353515625, 12.9254150390625, 77.67333984375), QueryZoom15);
    assert !Intersects(BoundingBox(12.9254150390625, 77.6513671875, 12.930908203125, 77.662353515625), QueryZoom15);
  }

  lemma Zoom15Round15a(c: Cell)
    requires c == Cell(481485288, BoundingBox(12.919921875, 77.6513671875, 12.930908203125, 77.67333984375))
    ensures Step([c], QueryZoom15)
            == [
      Cell(1925941155, BoundingBox(12.9254150390625, 77.662353515625, 12.930908203125, 77.67333984375)),
      Cell(1925941154, BoundingBox(12.919921875, 77.662353515625, 12.9254150390625, 77.67333984375))]
  {
    SplitCell481485288(c);
    Zoom15Round15aFilter(Children(c));
    RoundOfOne([c], QueryZoom15, Survivors(Children(c), QueryZoom15));
  }

  lemma SplitCell481485290(c: Cell)
    requires c == Cell(481485290, BoundingBox(12.919921875, 77.67333984375, 12.930908203125, 77.6953125))
    ensures Children(c) == [
      Cell(1925941160, BoundingBox(12.919921875, 77.67333984375, 12.9254150390625, 77.684326171875)),
      Cell(1925941163, BoundingBox(12.9254150390625, 77.684326171875, 12.930908203125, 77.6953125)),
      Cell(1925941162, BoundingBox(12.919921875, 77.684326171875, 12.9254150390625, 77.6953125)),
      Cell(1925941161, BoundingBox(12.9254150390625, 77.67333984375, 12.930908203125, 77.684326171875))]
  {
    assert Child(c, BottomLeft)
        == Cell(1925941160, BoundingBox(12.919921875, 77.67333984375, 12.9254150390625, 77.684326171875));
    assert Child(c, TopRight)
        == Cell(1925941163, BoundingBox(12.9254150390625, 77.684326171875, 12.930908203125, 77.6953125));
    assert Child(c, BottomRight)
        == Cell(1925941162, BoundingBox(12.919921875, 77.684326171875, 12.9254150390625, 77.6953125));
    assert Child(c, TopLeft)
        == Cell(1925941161, BoundingBox(12.9254150390625, 77.67333984375, 12.930908203125, 77.684326171875));
  }

  lemma Zoom15Round15bFilter(s: seq<Cell>)
    requires s == [
      Cell(1925941160, BoundingBox(12.919921875, 77.67333984375, 12.9254150390625, 77.684326171875)),
      Cell(1925941163, BoundingBox(12.9254150390625, 77.684326171875, 12.930908203125, 77.6953125)),
      Cell(1925941162, BoundingBox(12.919921875, 77.684326171875, 12.9254150390625, 77.6953125)),
      Cell(1925941161, BoundingBox(12.9254150390625, 77.67333984375, 12.930908203125, 77.684326171875))]
    ensures Survivors(s, QueryZoom15)
            == [
      Cell(1925941160, BoundingBox(12.919921875, 77.67333984375, 12.9254150390625, 77.684326171875)),
      Cell(1925941161, BoundingBox(12.9254150390625, 77.67333984375, 12.930908203125, 77.684326171875))]
  {
    SurvivorsOfFour(s, QueryZoom15);
    assert Intersects(BoundingBox(12.919921875, 77.67333984375, 12.9254150390625, 77.684326171875), QueryZoom15);
    assert !Intersects(BoundingBox(12.9254150390625, 77.684326171875, 12.930908203125, 77.6953125), QueryZoom15);
    assert !Intersects(BoundingBox(12.919921875, 77.684326171875, 12.9254150390625, 77.6953125), QueryZoom15);
    assert Intersects(BoundingBox(12.9254150390625, 77.67333984375, 12.930908203125, 77.684326171875), QueryZoom15);
  }

  lemma Zoom15Round15b(c: Cell)
    requires c == Cell(481485290, BoundingBox(12.919921875, 77.67333984375, 12.930908203125, 77.6953125))
    ensures Step([c], QueryZoom15)
            == [
      Cell(1925941160, BoundingBox(12.919921875, 77.67333984375, 12.9254150390625, 77.684326171875)),
      Cell(1925941161, BoundingBox(12.9254150390625, 77.67333984375, 12.930908203125, 77.684326171875))]
  {
    SplitCell481485290(c);
    Zoom15Round15bFilter(Children(c));
    RoundOfOne([c], QueryZoom15, Survivors(Children(c), QueryZoom15));
  }

  lemma Zoom15Round15(a: Cell, b: Cell)
    requires a == Cell(481485288, BoundingBox(12.919921875, 77.6513671875, 12.930908203125, 77.67333984375))
    requires b == Cell(481485290, BoundingBox(12.919921875, 77.67333984375, 12.930908203125, 77.6953125))
    ensures Step([a, b], QueryZoom15)
            == [
      Cell(1925941155, BoundingBox(12.9254150390625, 77.662353515625, 12.930908203125, 77.67333984375)),
      Cell(1925941154, BoundingBox(12.919921875, 77.662353515625, 12.9254150390625, 77.67333984375)),
      Cell(1925941160, BoundingBox(12.919921875, 77.67333984375, 12.9254150390625, 77.684326171875)),
      Cell(1925941161, BoundingBox(12.9254150390625, 77.67333984375, 12.930908203125, 77.684326171875))]
  {
    Zoom15Round15a(a);
    Zoom15Round15b(b);
    RoundOfTwo([a, b], QueryZoom15, Step([a], QueryZoom15), Step([b], QueryZoom15));
    Join22(
      Cell(1925941155, BoundingBox(12.9254150390625, 77.662353515625, 12.930908203125, 77.67333984375)),
      Cell(1925941154, BoundingBox(12.919921875, 77.662353515625, 12.9254150390625, 77.67333984375)),
      Cell(1925941160, BoundingBox(12.919921875, 77.67333984375, 12.9254150390625, 77.684326171875)),
      Cell(1925941161, BoundingBox(12.9254150390625, 77.67333984375, 12.930908203125, 77.684326171875)));
  }

  lemma Zoom15Level15(w: BoundingBox, q: BoundingBox)
    requires w == World && q == QueryZoom15
    ensures SearchCells(w, q, 15) == [
      Cell(1925941155, BoundingBox(12.9254150390625, 77.662353515625, 12.930908203125, 77.67333984375)),
      Cell(1925941154, BoundingBox(12.919921875, 77.662353515625, 12.9254150390625, 77.67333984375)),
      Cell(1925941160, BoundingBox(12.919921875, 77.67333984375, 12.9254150390625, 77.684326171875)),
      Cell(1925941161, BoundingBox(12.9254150390625, 77.67333984375, 12.930908203125, 77.684326171875))]
  {
    Zoom15Level14(w, q);
    var s := SearchCells(w, q, 14);
    assert s == [s[0], s[1]];
    Zoom15Round15(s[0], s[1]);
  }

  lemma Zoom15Codes(s: seq<Cell>)
    requires s == [
      Cell(1925941155, BoundingBox(12.9254150390625, 77.662353515625, 12.930908203125, 77.67333984375)),
      Cell(1925941154, BoundingBox(12.919921875, 77.662353515625, 12.9254150390625, 77.67333984375)),
      Cell(1925941160, BoundingBox(12.919921875, 77.67333984375, 12.9254150390625, 77.684326171875)),
      Cell(1925941161, BoundingBox(12.9254150390625, 77.67333984375, 12.930908203125, 77.684326171875))]
    ensures Codes(s) == [1925941155, 1925941154, 1925941160, 1925941161]
  {
  }

  /** The zoom-15 test of `geo_hashes_for_bounding_box`: codes
      0b1110010110010111000011110100011,
      0b1110010110010111000011110100010,
      0b1110010110010111000011110101000,
      0b1110010110010111000011110101001. */
  lemma Zoom15Case()
    ensures GeoHashes(World, QueryZoom15, 15) == [1925941155, 1925941154, 1925941160, 1925941161]
  {
    Zoom15Level15(World, QueryZoom15);
    Zoom15Codes(SearchCells(World, QueryZoom15, 15));
  }
}
