/** One quadtree cell and its subdivision into four children: the 2-bit
    quadrant tags, the `u64` child codes and the bisected child boxes. */
module Quadtree {
  import opened BBox

  const TwoTo62: nat := 0x4000_0000_0000_0000
  const TwoTo64: nat := 0x1_0000_0000_0000_0000

  /** An unsigned 64-bit code. */
  type u64 = x: nat | x < TwoTo64

  /** The four halves-of-both-axes a cell splits into. */
  datatype Quadrant = BottomLeft | TopLeft | BottomRight | TopRight

  /** Quadrant lies in the upper-latitude half. */
  predicate IsTop(q: Quadrant) {
    q.TopLeft? || q.TopRight?
  }

  /** Quadrant lies in the upper-longitude half. */
  predicate IsRight(q: Quadrant) {
    q.BottomRight? || q.TopRight?
  }

  /** The quadrant constants: the low bit selects the upper latitude half,
      the high bit the upper longitude half. */
  function Tag(q: Quadrant): (t: nat)
    ensures t < 4
    ensures t % 2 == 1 <==> IsTop(q)
    ensures t / 2 == 1 <==> IsRight(q)
  {
    match q
    case BottomLeft => 0x0
    case TopLeft => 0x1
    case BottomRight => 0x2
    case TopRight => 0x3
  }

  /** Inverse of `Tag` on the two-bit values. */
  function QuadrantOf(t: nat): (q: Quadrant)
    requires t < 4
    ensures Tag(q) == t
  {
    if t == 0 then BottomLeft
    else if t == 1 then TopLeft
    else if t == 2 then BottomRight
    else TopRight
  }

  lemma TagInjective(p: Quadrant, q: Quadrant)
    ensures Tag(p) == Tag(q) <==> p == q
  {
  }

  /** `(p << 2) mod 2^64` is four times `p` with its two top bits dropped. */
  lemma ShiftLeftTwo(p: nat)
    ensures (p * 4) % TwoTo64 == 4 * (p % TwoTo62)
  {
    var k := p / TwoTo62;
    var m := p % TwoTo62;
    assert p == TwoTo62 * k + m;
    assert p * 4 == TwoTo64 * k + 4 * m;
    assert 0 <= 4 * m < TwoTo64;
  }

  /** `(p << 2) | tag` on `u64`: the shift wraps modulo 2^64, and since its two
      low bits are zero the `|` with a tag below 4 is an addition. */
  function ChildCode(p: u64, q: Quadrant): (c: u64)
    ensures c % 4 == Tag(q)
    ensures c / 4 == p % TwoTo62
    ensures p < TwoTo62 ==> c / 4 == p && c == 4 * p + Tag(q)
  {
    ShiftLeftTwo(p);
    (p * 4) % TwoTo64 + Tag(q)
  }

  /** The quadrant `q` of `b`, bisected at the midpoint of each axis. */
  function ChildBox(b: BoundingBox, q: Quadrant): (r: BoundingBox)
    ensures r.maxLat - r.minLat == (b.maxLat - b.minLat) / 2.0
    ensures r.maxLng - r.minLng == (b.maxLng - b.minLng) / 2.0
    ensures if IsTop(q) then r.maxLat == b.maxLat else r.minLat == b.minLat
    ensures if IsRight(q) then r.maxLng == b.maxLng else r.minLng == b.minLng
    ensures WellFormed(b) ==> WellFormed(r) && Contains(b, r)
  {
    var midLat := (b.minLat + b.maxLat) / 2.0;
    var midLng := (b.minLng + b.maxLng) / 2.0;
    match q
    case BottomLeft => BoundingBox(b.minLat, b.minLng, midLat, midLng)
    case BottomRight => BoundingBox(b.minLat, midLng, midLat, b.maxLng)
    case TopLeft => BoundingBox(midLat, b.minLng, b.maxLat, midLng)
    case TopRight => BoundingBox(midLat, midLng, b.maxLat, b.maxLng)
  }

  /** A live cell of the search: its code and the box it stands for. */
  datatype Cell = Cell(code: u64, box: BoundingBox)

  /** The child of `c` in quadrant `q`: the quadrant's code paired with the
      quadrant's box, as each `next_*` step builds them together. */
  function Child(c: Cell, q: Quadrant): Cell {
    Cell(ChildCode(c.code, q), ChildBox(c.box, q))
  }

  /** The fixed order children are produced in. */
  const EmissionOrder: seq<Quadrant> := [BottomLeft, TopRight, BottomRight, TopLeft]

  /** The four children of `c`, in emission order. */
  function Children(c: Cell): (r: seq<Cell>)
    ensures |r| == 4
    ensures forall i :: 0 <= i < 4 ==> r[i] == Child(c, EmissionOrder[i])
    ensures [r[0].code % 4, r[1].code % 4, r[2].code % 4, r[3].code % 4] == [0x0, 0x3, 0x2, 0x1]
    ensures forall i, j :: 0 <= i < j < 4 ==> r[i].code != r[j].code
    ensures c.code < TwoTo62 ==> forall i :: 0 <= i < 4 ==> r[i].code / 4 == c.code
  {
    [Child(c, BottomLeft), Child(c, TopRight), Child(c, BottomRight), Child(c, TopLeft)]
  }

  /** Siblings never intersect one another: each pair is separated by a
      shared midline, which the strict test treats as no overlap. */
  lemma SiblingsDisjoint(c: Cell, i: nat, j: nat)
    requires i < 4 && j < 4 && i != j
    ensures !Intersects(Children(c)[i].box, Children(c)[j].box)
  {
    var r := Children(c);
    var midLat := (c.box.minLat + c.box.maxLat) / 2.0;
    var midLng := (c.box.minLng + c.box.maxLng) / 2.0;
    assert r[0].box.maxLat == midLat && r[0].box.maxLng == midLng;
    assert r[1].box.minLat == midLat && r[1].box.minLng == midLng;
    assert r[2].box.maxLat == midLat && r[2].box.minLng == midLng;
    assert r[3].box.minLat == midLat && r[3].box.maxLng == midLng;
  }

  /** The children cover the parent: every point of a well-formed parent
      (boundary included) lies in one of its children. */
  lemma ChildrenCoverParent(c: Cell, lat: real, lng: real)
    requires WellFormed(c.box)
    requires InClosed(lat, lng, c.box)
    ensures exists i :: 0 <= i < 4 && InClosed(lat, lng, Children(c)[i].box)
  {
    var r := Children(c);
    var midLat := (c.box.minLat + c.box.maxLat) / 2.0;
    var midLng := (c.box.minLng + c.box.maxLng) / 2.0;
    var q := if lat <= midLat then
               (if lng <= midLng then 0 else 2)
             else
               (if lng <= midLng then 3 else 1);
    assert InClosed(lat, lng, r[q].box);
  }

  /** Each child of a well-formed cell is a well-formed box inside it. */
  lemma ChildInsideParent(c: Cell, i: nat)
    requires WellFormed(c.box) && i < 4
    ensures WellFormed(Children(c)[i].box) && Contains(c.box, Children(c)[i].box)
  {
    assert Children(c)[i].box == ChildBox(c.box, EmissionOrder[i]);
  }

  /** Pruning is sound: a child that intersects the query has a parent that
      does, so a discarded cell hides no live descendant. */
  lemma ChildIntersectsOnlyIfParentDoes(c: Cell, i: nat, q: BoundingBox)
    requires WellFormed(c.box) && i < 4
    requires Intersects(Children(c)[i].box, q)
    ensures Intersects(c.box, q)
  {
    IntersectsMonotone(Children(c)[i].box, c.box, q);
  }

  /** Pruning is complete: a well-formed cell that intersects a query with a
      non-empty interior has at least one child that does. (A zero-width
      query lying exactly on the cell's midline meets the cell but none of
      its children.) */
  lemma ParentIntersectsSomeChild(c: Cell, q: BoundingBox)
    requires WellFormed(c.box) && Proper(q)
    requires Intersects(c.box, q)
    ensures exists i :: 0 <= i < 4 && Intersects(Children(c)[i].box, q)
  {
    var r := Children(c);
    var b := c.box;
    var midLat := (b.minLat + b.maxLat) / 2.0;
    var midLng := (b.minLng + b.maxLng) / 2.0;
    var i := if q.minLat < midLat then
               (if q.minLng < midLng then 0 else 2)
             else
               (if q.minLng < midLng then 3 else 1);
    assert Intersects(r[i].box, q);
  }
}
