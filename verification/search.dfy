/** The level-by-level search: starting from the root cell (code 1, the world
    box), every round replaces each live cell by those of its four children
    whose box intersects the query, keeping parents in order and each
    parent's children in emission order. */
module Search {
  import opened BBox
  import opened Quadtree

  function Pow4(n: nat): (r: nat)
    ensures r >= 1
  {
    if n == 0 then 1 else 4 * Pow4(n - 1)
  }

  lemma {:induction false} Pow4Monotone(a: nat, b: nat)
    requires a <= b
    ensures Pow4(a) <= Pow4(b)
    decreases b
  {
    if a < b {
      Pow4Monotone(a, b - 1);
    }
  }

  lemma {:induction false} Pow4Add(a: nat, b: nat)
    ensures Pow4(a + b) == Pow4(a) * Pow4(b)
    decreases b
  {
    if b > 0 {
      Pow4Add(a, b - 1);
      assert Pow4(a + b) == 4 * Pow4(a + b - 1);
    }
  }

  /** Level-30 codes still leave room for the two bits of the next level. */
  lemma Pow4Headroom(d: nat)
    requires d <= 30
    ensures 2 * Pow4(d) <= TwoTo62 / 2
  {
    Pow4Monotone(d, 30);
    Pow4Thirty();
  }

  lemma Pow4Ten()
    ensures Pow4(10) == 0x10_0000
  {
    assert Pow4(5) == 1024;
    Pow4Add(5, 5);
  }

  lemma Pow4Twenty()
    ensures Pow4(20) == 0x100_0000_0000
  {
    Pow4Ten();
    Pow4Add(10, 10);
  }

  lemma Pow4Thirty()
    ensures Pow4(30) == 0x1000_0000_0000_0000
  {
    Pow4Ten();
    Pow4Twenty();
    Pow4Add(20, 10);
  }

  /** The cells of `s` whose box intersects `q`, in their original order. */
  function Survivors(s: seq<Cell>, q: BoundingBox): (r: seq<Cell>)
    ensures |r| <= |s|
    ensures forall c :: c in r <==> c in s && Intersects(c.box, q)
  {
    if |s| == 0 then []
    else (if Intersects(s[0].box, q) then [s[0]] else []) + Survivors(s[1..], q)
  }

  lemma {:induction false} SurvivorsAppend(a: seq<Cell>, b: seq<Cell>, q: BoundingBox)
    ensures Survivors(a + b, q) == Survivors(a, q) + Survivors(b, q)
    decreases |a|
  {
    if |a| > 0 {
      assert (a + b)[1..] == a[1..] + b;
      SurvivorsAppend(a[1..], b, q);
    } else {
      assert a + b == b;
    }
  }

  /** `c` is one of the children of some cell of `f`. */
  ghost predicate HasParentIn(c: Cell, f: seq<Cell>) {
    exists p :: p in f && c in Children(p)
  }

  /** One round of the search: each frontier cell, in order, contributes those
      of its children that intersect the query. */
  function Step(frontier: seq<Cell>, q: BoundingBox): (r: seq<Cell>)
    ensures |r| <= 4 * |frontier|
    ensures forall c :: c in r ==> Intersects(c.box, q)
  {
    if |frontier| == 0 then []
    else Survivors(Children(frontier[0]), q) + Step(frontier[1..], q)
  }

  /** A cell of a round's output names its parent cell and its position
      among that parent's children. */
  lemma {:induction false} StepParent(frontier: seq<Cell>, q: BoundingBox, c: Cell) returns (p: Cell, i: nat)
    requires c in Step(frontier, q)
    ensures p in frontier && i < 4 && Children(p)[i] == c
    decreases |frontier|
  {
    var kept := Survivors(Children(frontier[0]), q);
    assert Step(frontier, q) == kept + Step(frontier[1..], q);
    if c in kept {
      p := frontier[0];
      i :| 0 <= i < 4 && Children(p)[i] == c;
    } else {
      p, i := StepParent(frontier[1..], q, c);
      assert p in frontier;
    }
  }

  /** Every intersecting child of a frontier cell is in the round's output. */
  lemma {:induction false} StepChild(frontier: seq<Cell>, q: BoundingBox, p: Cell, i: nat)
    requires p in frontier && i < 4
    requires Intersects(Children(p)[i].box, q)
    ensures Children(p)[i] in Step(frontier, q)
    decreases |frontier|
  {
    var kept := Survivors(Children(frontier[0]), q);
    assert Step(frontier, q) == kept + Step(frontier[1..], q);
    if frontier[0] == p {
      assert Children(p)[i] in kept;
    } else {
      assert p in frontier[1..];
      StepChild(frontier[1..], q, p, i);
    }
  }

  /** Membership in a round's output: exactly the intersecting children of
      the frontier's cells. */
  lemma StepMembers(frontier: seq<Cell>, q: BoundingBox, c: Cell)
    ensures c in Step(frontier, q) <==> Intersects(c.box, q) && HasParentIn(c, frontier)
  {
    if c in Step(frontier, q) {
      var p, i := StepParent(frontier, q, c);
      assert c in Children(p);
    }
    if Intersects(c.box, q) && HasParentIn(c, frontier) {
      var p :| p in frontier && c in Children(p);
      var i :| 0 <= i < 4 && Children(p)[i] == c;
      StepChild(frontier, q, p, i);
    }
  }

  /** Rounds process the queue front to back: splitting the frontier splits
      the output the same way. */
  lemma {:induction false} StepAppend(a: seq<Cell>, b: seq<Cell>, q: BoundingBox)
    ensures Step(a + b, q) == Step(a, q) + Step(b, q)
    decreases |a|
  {
    if |a| > 0 {
      var kept := Survivors(Children(a[0]), q);
      assert (a + b)[0] == a[0];
      assert (a + b)[1..] == a[1..] + b;
      StepAppend(a[1..], b, q);
      assert Step(a + b, q) == kept + Step(a[1..] + b, q);
      assert Step(a, q) == kept + Step(a[1..], q);
      assert kept + (Step(a[1..], q) + Step(b, q)) == (kept + Step(a[1..], q)) + Step(b, q);
    } else {
      assert a + b == b;
    }
  }

  /** The root of the search: the sentinel code 1 with the world box. */
  function Root(world: BoundingBox): Cell {
    Cell(1, world)
  }

  /** The live cells after `zoom` rounds. */
  function SearchCells(world: BoundingBox, q: BoundingBox, zoom: nat): (r: seq<Cell>)
    ensures |r| <= Pow4(zoom)
    ensures zoom > 0 ==> forall c :: c in r ==> Intersects(c.box, q)
  {
    if zoom == 0 then [Root(world)]
    else Step(SearchCells(world, q, zoom - 1), q)
  }

  function Codes(s: seq<Cell>): (r: seq<u64>)
    ensures |r| == |s|
    ensures forall i :: 0 <= i < |s| ==> r[i] == s[i].code
  {
    seq(|s|, i requires 0 <= i < |s| => s[i].code)
  }

  lemma CodesMember(s: seq<Cell>, code: u64)
    requires code in Codes(s)
    ensures exists c :: c in s && c.code == code
  {
    var i :| 0 <= i < |s| && Codes(s)[i] == code;
    assert s[i] in s;
  }

  lemma MemberCode(s: seq<Cell>, c: Cell)
    requires c in s
    ensures c.code in Codes(s)
  {
    var i :| 0 <= i < |s| && s[i] == c;
    assert Codes(s)[i] == c.code;
  }

  /** The codes the search returns, in queue order. */
  function GeoHashes(world: BoundingBox, q: BoundingBox, zoom: nat): (r: seq<u64>)
    ensures |r| <= Pow4(zoom)
  {
    Codes(SearchCells(world, q, zoom))
  }

  /** With no rounds the result is the root code alone, whatever the boxes. */
  lemma ZoomZeroIsRoot(world: BoundingBox, q: BoundingBox)
    ensures GeoHashes(world, q, 0) == [1]
  {
  }

  /** Every code of level `d` has bit-length `2*d + 1`. */
  ghost predicate LevelCodes(s: seq<Cell>, d: nat) {
    forall c :: c in s ==> Pow4(d) <= c.code < 2 * Pow4(d)
  }

  lemma {:induction false} StepLevelCodes(frontier: seq<Cell>, q: BoundingBox, d: nat)
    requires d < 31
    requires LevelCodes(frontier, d)
    ensures LevelCodes(Step(frontier, q), d + 1)
  {
    forall c | c in Step(frontier, q)
      ensures Pow4(d + 1) <= c.code < 2 * Pow4(d + 1)
    {
      var p, i := StepParent(frontier, q, c);
      Pow4Headroom(d);
      assert p.code < TwoTo62;
      assert c.code == 4 * p.code + Tag(EmissionOrder[i]);
    }
  }

  lemma {:induction false} SearchLevelCodes(world: BoundingBox, q: BoundingBox, zoom: nat)
    requires zoom <= 31
    ensures LevelCodes(SearchCells(world, q, zoom), zoom)
  {
    if zoom > 0 {
      SearchLevelCodes(world, q, zoom - 1);
      StepLevelCodes(SearchCells(world, q, zoom - 1), q, zoom - 1);
    }
  }

  /** Code width: up to zoom 31 (past which the `u64` shift wraps) every
      returned code has bit-length `2*zoom + 1`: `4^zoom <= c < 2*4^zoom`. */
  lemma CodeWidth(world: BoundingBox, q: BoundingBox, zoom: nat)
    requires zoom <= 31
    ensures forall c :: c in GeoHashes(world, q, zoom) ==> Pow4(zoom) <= c < 2 * Pow4(zoom)
  {
    SearchLevelCodes(world, q, zoom);
    forall c | c in GeoHashes(world, q, zoom)
      ensures Pow4(zoom) <= c < 2 * Pow4(zoom)
    {
      CodesMember(SearchCells(world, q, zoom), c);
    }
  }

  /** No resurrection: every cell live after round `zoom + 1` is a child of a
      cell live after round `zoom`, and its code shifted right by two is that
      parent's code. */
  lemma NoResurrection(world: BoundingBox, q: BoundingBox, zoom: nat, c: Cell)
    requires zoom < 31
    requires c in SearchCells(world, q, zoom + 1)
    ensures exists p :: p in SearchCells(world, q, zoom) && c in Children(p) && c.code / 4 == p.code
  {
    var f := SearchCells(world, q, zoom);
    var p, i := StepParent(f, q, c);
    SearchLevelCodes(world, q, zoom);
    Pow4Headroom(zoom);
    assert p.code < TwoTo62;
  }

  /** No resurrection, on the returned codes. */
  lemma ParentCodeLive(world: BoundingBox, q: BoundingBox, zoom: nat, code: u64)
    requires zoom < 31
    requires code in GeoHashes(world, q, zoom + 1)
    ensures code / 4 in GeoHashes(world, q, zoom)
  {
    var s := SearchCells(world, q, zoom + 1);
    CodesMember(s, code);
    var c :| c in s && c.code == code;
    NoResurrection(world, q, zoom, c);
    var f := SearchCells(world, q, zoom);
    var p :| p in f && c in Children(p) && c.code / 4 == p.code;
    MemberCode(f, p);
  }
}
