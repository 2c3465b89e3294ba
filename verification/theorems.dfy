/** Whole-search properties: distinct codes, the result as a filter of the
    full quadtree level, and exactly when the result is empty. */
module SearchTheorems {
  import opened BBox
  import opened Quadtree
  import opened Search

  /** No two cells of `s` share a code. */
  ghost predicate DistinctCodes(s: seq<Cell>) {
    forall i, j :: 0 <= i < j < |s| ==> s[i].code != s[j].code
  }

  lemma {:induction false} SurvivorsDistinct(s: seq<Cell>, q: BoundingBox)
    requires DistinctCodes(s)
    ensures DistinctCodes(Survivors(s, q))
    decreases |s|
  {
    if |s| > 0 {
      SurvivorsDistinct(s[1..], q);
      var rest := Survivors(s[1..], q);
      forall c | c in rest
        ensures c.code != s[0].code
      {
        var k :| 0 <= k < |s[1..]| && s[1..][k] == c;
        assert s[k + 1] == c;
      }
    }
  }

  lemma DistinctConcat(a: seq<Cell>, b: seq<Cell>)
    requires DistinctCodes(a) && DistinctCodes(b)
    requires forall x, y :: x in a && y in b ==> x.code != y.code
    ensures DistinctCodes(a + b)
  {
    var ab := a + b;
    forall i, j | 0 <= i < j < |ab|
      ensures ab[i].code != ab[j].code
    {
      if j < |a| {
        assert ab[i] == a[i] && ab[j] == a[j];
      } else if i >= |a| {
        assert ab[i] == b[i - |a|] && ab[j] == b[j - |a|];
      } else {
        assert ab[i] == a[i] && ab[j] == b[j - |a|];
        assert a[i] in a && b[j - |a|] in b;
      }
    }
  }

  /** No two cells of `s` share a code once its top two bits are dropped,
      which is all of a code the shift `<< 2` keeps. */
  ghost predicate DistinctLowCodes(s: seq<Cell>) {
    forall i, j :: 0 <= i < j < |s| ==> s[i].code % TwoTo62 != s[j].code % TwoTo62
  }

  /** A cell of a later parent's block is not a child of `head` when no
      other frontier cell agrees with `head` below the top two bits. */
  lemma LaterBlockCodes(head: Cell, tail: seq<Cell>, q: BoundingBox, y: Cell)
    requires forall c :: c in tail ==> c.code % TwoTo62 != head.code % TwoTo62
    requires y in Step(tail, q)
    ensures y.code / 4 != head.code % TwoTo62
  {
    var p, i := StepParent(tail, q, y);
  }

  /** Dropping the head keeps the low codes distinct, and none of the rest
      matches the head's. */
  lemma LowCodesTail(f: seq<Cell>)
    requires |f| > 0 && DistinctLowCodes(f)
    ensures DistinctLowCodes(f[1..])
    ensures forall c :: c in f[1..] ==> c.code % TwoTo62 != f[0].code % TwoTo62
  {
    var tail := f[1..];
    forall i, j | 0 <= i < j < |tail|
      ensures tail[i].code % TwoTo62 != tail[j].code % TwoTo62
    {
      assert tail[i] == f[i + 1] && tail[j] == f[j + 1];
    }
    forall c | c in tail
      ensures c.code % TwoTo62 != f[0].code % TwoTo62
    {
      var k :| 0 <= k < |tail| && tail[k] == c;
      assert f[k + 1] == c;
    }
  }

  /** The surviving children of `head` and the round's output over `tail`
      share no code. */
  lemma HeadBlockApart(head: Cell, tail: seq<Cell>, q: BoundingBox)
    requires forall c :: c in tail ==> c.code % TwoTo62 != head.code % TwoTo62
    ensures forall x, y :: x in Survivors(Children(head), q) && y in Step(tail, q) ==> x.code != y.code
  {
    var kids := Children(head);
    forall x, y | x in Survivors(kids, q) && y in Step(tail, q)
      ensures x.code != y.code
    {
      var i :| 0 <= i < 4 && kids[i] == x;
      assert x.code / 4 == head.code % TwoTo62;
      LaterBlockCodes(head, tail, q, y);
    }
  }

  /** One round keeps codes distinct when the frontier's codes stay distinct
      after the shift drops their top two bits: children of one parent
      differ in their tag, children of different parents in the shifted
      parent code. */
  lemma {:induction false} StepDistinct(f: seq<Cell>, q: BoundingBox)
    requires DistinctLowCodes(f)
    ensures DistinctCodes(Step(f, q))
    decreases |f|
  {
    if |f| > 0 {
      LowCodesTail(f);
      StepDistinct(f[1..], q);
      SurvivorsDistinct(Children(f[0]), q);
      HeadBlockApart(f[0], f[1..], q);
      DistinctConcat(Survivors(Children(f[0]), q), Step(f[1..], q));
    }
  }

  /** Distinct codes of one level up to 31 stay distinct without their top
      two bits: below level 31 those bits are zero, and at level 31 they are
      the same `01` for every code. */
  lemma LevelLowCodes(s: seq<Cell>, d: nat)
    requires d <= 31
    requires LevelCodes(s, d) && DistinctCodes(s)
    ensures DistinctLowCodes(s)
  {
    if d <= 30 {
      Pow4Headroom(d);
      LowCodesInBand(s, 0);
    } else {
      Pow4Thirty();
      assert Pow4(31) == TwoTo62;
      LowCodesInBand(s, 1);
    }
  }

  /** Codes that all share the same top bits `k` keep their differences in
      the low bits. */
  lemma LowCodesInBand(s: seq<Cell>, k: nat)
    requires forall c :: c in s ==> k * TwoTo62 <= c.code < (k + 1) * TwoTo62
    requires DistinctCodes(s)
    ensures DistinctLowCodes(s)
  {
    forall i, j | 0 <= i < j < |s|
      ensures s[i].code % TwoTo62 != s[j].code % TwoTo62
    {
      assert s[i] in s && s[j] in s;
      assert s[i].code % TwoTo62 == s[i].code - k * TwoTo62;
      assert s[j].code % TwoTo62 == s[j].code - k * TwoTo62;
    }
  }

  /** Up to zoom 32 the search never returns the same code twice. At zoom 32
      the shift has dropped every cell's sentinel bit, but the 64 bits left
      still hold its whole path of quadrant choices. */
  lemma {:induction false} SearchDistinct(world: BoundingBox, q: BoundingBox, zoom: nat)
    requires zoom <= 32
    ensures DistinctCodes(SearchCells(world, q, zoom))
  {
    if zoom > 0 {
      SearchDistinct(world, q, zoom - 1);
      var f := SearchCells(world, q, zoom - 1);
      SearchLevelCodes(world, q, zoom - 1);
      LevelLowCodes(f, zoom - 1);
      StepDistinct(f, q);
    }
  }

  /** The returned codes are pairwise distinct, so the result is a set
      listed in queue order. */
  lemma ResultHasNoDuplicates(world: BoundingBox, q: BoundingBox, zoom: nat)
    requires zoom <= 32
    ensures forall i, j :: 0 <= i < j < |GeoHashes(world, q, zoom)| ==>
              GeoHashes(world, q, zoom)[i] != GeoHashes(world, q, zoom)[j]
  {
    SearchDistinct(world, q, zoom);
  }

  /** Every cell of `f` replaced by all four children, in queue order. */
  function Expand(f: seq<Cell>): (r: seq<Cell>)
    ensures |r| == 4 * |f|
  {
    if |f| == 0 then [] else Children(f[0]) + Expand(f[1..])
  }

  /** The full, unpruned level `zoom` of the quadtree over `world`. */
  function AllCells(world: BoundingBox, zoom: nat): (r: seq<Cell>)
    ensures |r| == Pow4(zoom)
  {
    if zoom == 0 then [Root(world)] else Expand(AllCells(world, zoom - 1))
  }

  lemma {:induction false} StepIsSurvivorsOfExpand(f: seq<Cell>, q: BoundingBox)
    ensures Step(f, q) == Survivors(Expand(f), q)
    decreases |f|
  {
    if |f| > 0 {
      StepIsSurvivorsOfExpand(f[1..], q);
      SurvivorsAppend(Children(f[0]), Expand(f[1..]), q);
    }
  }

  ghost predicate AllWellFormed(s: seq<Cell>) {
    forall c :: c in s ==> WellFormed(c.box)
  }

  lemma {:induction false} ExpandWellFormed(f: seq<Cell>)
    requires AllWellFormed(f)
    ensures AllWellFormed(Expand(f))
    decreases |f|
  {
    if |f| > 0 {
      assert f[0] in f;
      assert forall c :: c in f[1..] ==> c in f;
      ExpandWellFormed(f[1..]);
    }
  }

  lemma {:induction false} AllCellsWellFormed(world: BoundingBox, zoom: nat)
    requires WellFormed(world)
    ensures AllWellFormed(AllCells(world, zoom))
  {
    if zoom > 0 {
      AllCellsWellFormed(world, zoom - 1);
      ExpandWellFormed(AllCells(world, zoom - 1));
    }
  }

  lemma ExpandCons(head: Cell, tail: seq<Cell>)
    ensures Expand([head] + tail) == Children(head) + Expand(tail)
  {
    assert ([head] + tail)[1..] == tail;
  }

  lemma SurvivorsCons(head: Cell, tail: seq<Cell>, q: BoundingBox)
    ensures Survivors([head] + tail, q) ==
            (if Intersects(head.box, q) then [head] else []) + Survivors(tail, q)
  {
    assert ([head] + tail)[1..] == tail;
  }

  lemma {:induction false} SurvivorsNone(s: seq<Cell>, q: BoundingBox)
    requires forall i :: 0 <= i < |s| ==> !Intersects(s[i].box, q)
    ensures Survivors(s, q) == []
    decreases |s|
  {
    if |s| > 0 {
      SurvivorsNone(s[1..], q);
    }
  }

  /** A well-formed cell that misses the query has no child that meets it. */
  lemma NoChildSurvives(c: Cell, q: BoundingBox)
    requires WellFormed(c.box) && !Intersects(c.box, q)
    ensures Survivors(Children(c), q) == []
  {
    forall i | 0 <= i < 4
      ensures !Intersects(Children(c)[i].box, q)
    {
      if Intersects(Children(c)[i].box, q) {
        ChildIntersectsOnlyIfParentDoes(c, i, q);
      }
    }
    SurvivorsNone(Children(c), q);
  }

  /** Pruning a level before expanding it loses nothing: a cell that fails
      the test has no child that passes it. */
  lemma {:induction false} PruneBeforeExpand(s: seq<Cell>, q: BoundingBox)
    requires AllWellFormed(s)
    ensures Survivors(Expand(Survivors(s, q)), q) == Survivors(Expand(s), q)
    decreases |s|
  {
    if |s| > 0 {
      var head := s[0];
      var tail := s[1..];
      assert s == [head] + tail;
      assert head in s;
      assert AllWellFormed(tail) by {
        forall c | c in tail ensures WellFormed(c.box) {
          assert c in s;
        }
      }
      PruneBeforeExpand(tail, q);
      ExpandCons(head, tail);
      SurvivorsAppend(Children(head), Expand(tail), q);
      SurvivorsCons(head, tail, q);
      if Intersects(head.box, q) {
        ExpandCons(head, Survivors(tail, q));
        SurvivorsAppend(Children(head), Expand(Survivors(tail, q)), q);
      } else {
        NoChildSurvives(head, q);
        assert Survivors(s, q) == Survivors(tail, q);
      }
    }
  }

  /** Reference definition of the search: for a well-formed world and at
      least one round, the result is the full quadtree level filtered by the
      intersection test, in the same order. */
  lemma {:induction false} SearchIsFilteredLevel(world: BoundingBox, q: BoundingBox, zoom: nat)
    requires WellFormed(world)
    requires zoom >= 1
    ensures SearchCells(world, q, zoom) == Survivors(AllCells(world, zoom), q)
  {
    var prev := SearchCells(world, q, zoom - 1);
    var all := AllCells(world, zoom - 1);
    StepIsSurvivorsOfExpand(prev, q);
    if zoom > 1 {
      SearchIsFilteredLevel(world, q, zoom - 1);
      assert prev == Survivors(all, q);
      AllCellsWellFormed(world, zoom - 1);
      PruneBeforeExpand(all, q);
    }
  }

  /** Every cell of `s` is a well-formed box inside `world`. */
  ghost predicate InsideWorld(world: BoundingBox, s: seq<Cell>) {
    forall c :: c in s ==> WellFormed(c.box) && Contains(world, c.box)
  }

  lemma StepInsideWorld(world: BoundingBox, f: seq<Cell>, q: BoundingBox)
    requires InsideWorld(world, f)
    ensures InsideWorld(world, Step(f, q))
  {
    forall c | c in Step(f, q)
      ensures WellFormed(c.box) && Contains(world, c.box)
    {
      var p, i := StepParent(f, q, c);
      assert WellFormed(p.box) && Contains(world, p.box);
      ChildInsideParent(p, i);
    }
  }

  /** Live cells stay inside a well-formed world box. */
  lemma LiveCellsInsideWorld(world: BoundingBox, q: BoundingBox, zoom: nat)
    requires WellFormed(world)
    ensures InsideWorld(world, SearchCells(world, q, zoom))
  {
    if zoom == 0 {
      RootInsideWorld(world, q);
    } else {
      LiveCellsInsideWorld(world, q, zoom - 1);
      NextLevelInsideWorld(world, q, zoom);
    }
  }

  lemma RootInsideWorld(world: BoundingBox, q: BoundingBox)
    requires WellFormed(world)
    ensures InsideWorld(world, SearchCells(world, q, 0))
  {
  }

  lemma NextLevelInsideWorld(world: BoundingBox, q: BoundingBox, zoom: nat)
    requires zoom > 0 && InsideWorld(world, SearchCells(world, q, zoom - 1))
    ensures InsideWorld(world, SearchCells(world, q, zoom))
  {
    StepInsideWorld(world, SearchCells(world, q, zoom - 1), q);
  }

  /** A well-formed world that a query misses yields no cell at any zoom
      of one or more. */
  lemma EmptyWhenDisjoint(world: BoundingBox, q: BoundingBox, zoom: nat)
    requires WellFormed(world)
    requires !Intersects(world, q)
    requires zoom >= 1
    ensures GeoHashes(world, q, zoom) == []
  {
    LiveCellsInsideWorld(world, q, zoom);
    var s := SearchCells(world, q, zoom);
    if |s| > 0 {
      assert s[0] in s;
      IntersectsMonotone(s[0].box, world, q);
    }
  }

  /** A query with a non-empty interior that meets a well-formed world keeps
      some well-formed live cell that meets it, at every zoom. */
  lemma {:induction false} SomeCellSurvives(world: BoundingBox, q: BoundingBox, zoom: nat)
    requires WellFormed(world) && Proper(q)
    requires Intersects(world, q)
    ensures exists c :: c in SearchCells(world, q, zoom) && WellFormed(c.box) && Intersects(c.box, q)
  {
    if zoom == 0 {
      assert Root(world) in SearchCells(world, q, 0);
    } else {
      SomeCellSurvives(world, q, zoom - 1);
      var f := SearchCells(world, q, zoom - 1);
      var p :| p in f && WellFormed(p.box) && Intersects(p.box, q);
      ParentIntersectsSomeChild(p, q);
      var i :| 0 <= i < 4 && Intersects(Children(p)[i].box, q);
      StepChild(f, q, p, i);
      ChildInsideParent(p, i);
    }
  }

  /** For a well-formed world and a query with a non-empty interior, the
      result at zoom one or more is empty exactly when the query misses the
      world box. */
  lemma EmptyIffDisjoint(world: BoundingBox, q: BoundingBox, zoom: nat)
    requires WellFormed(world) && Proper(q)
    requires zoom >= 1
    ensures GeoHashes(world, q, zoom) == [] <==> !Intersects(world, q)
  {
    if Intersects(world, q) {
      SomeCellSurvives(world, q, zoom);
    } else {
      EmptyWhenDisjoint(world, q, zoom);
    }
  }
}
