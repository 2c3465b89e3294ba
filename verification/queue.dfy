/** The search as `geo_hashes_for_bounding_box` in the Rust `geohash` crate
    runs it: a queue of live cells, drained front
    to back every round while each cell's intersecting children are pushed
    onto the next round's queue. */
module QueueSearch {
  import opened BBox
  import opened Quadtree
  import opened Search
  import SearchTheorems

  /** Pushes the children of `kids[..k]` that meet `q`, one by one. */
  lemma SurvivorsSnoc(s: seq<Cell>, k: nat, q: BoundingBox)
    requires k < |s|
    ensures Survivors(s[..k + 1], q) ==
            Survivors(s[..k], q) + (if Intersects(s[k].box, q) then [s[k]] else [])
  {
    assert s[..k + 1] == s[..k] + [s[k]];
    SurvivorsAppend(s[..k], [s[k]], q);
  }

  /** Draining the front cell moves its surviving children from the
      pending part of a round onto the output. */
  lemma DrainFront(before: seq<Cell>, rest: seq<Cell>, q: BoundingBox)
    requires rest != []
    ensures (before + Survivors(Children(rest[0]), q)) + Step(rest[1..], q) == before + Step(rest, q)
  {
  }

  /** Appends to `next` those of `kids` whose box meets `q`, in order. */
  method PushSurvivors(next: seq<Cell>, kids: seq<Cell>, q: BoundingBox) returns (r: seq<Cell>)
    ensures r == next + Survivors(kids, q)
  {
    r := next;
    var k := 0;
    while k < |kids|
      invariant 0 <= k <= |kids|
      invariant r == next + Survivors(kids[..k], q)
    {
      SurvivorsSnoc(kids, k, q);
      if Intersects(kids[k].box, q) {
        r := r + [kids[k]];
      }
      k := k + 1;
    }
    assert kids[..k] == kids;
  }

  /** One round: drains `queue` front to back into the next round's queue. */
  method Round(queue: seq<Cell>, q: BoundingBox) returns (next: seq<Cell>)
    ensures next == Step(queue, q)
    ensures forall c :: c in next ==> Intersects(c.box, q)
    ensures |next| <= 4 * |queue|
  {
    next := [];
    var rest := queue;
    while rest != []
      invariant next + Step(rest, q) == Step(queue, q)
      decreases |rest|
    {
      ghost var before := next;
      next := PushSurvivors(next, Children(rest[0]), q);
      DrainFront(before, rest, q);
      rest := rest[1..];
    }
  }

  /** The codes of the final queue, in order. */
  method CollectCodes(queue: seq<Cell>) returns (codes: seq<u64>)
    ensures |codes| == |queue|
    ensures forall i :: 0 <= i < |queue| ==> codes[i] == queue[i].code
  {
    codes := [];
    for j := 0 to |queue|
      invariant |codes| == j
      invariant forall i :: 0 <= i < j ==> codes[i] == queue[i].code
    {
      codes := codes + [queue[j].code];
    }
  }

  /** The search entry point: `zoom` rounds from the root cell, then the
      codes of the surviving cells. */
  method GeoHashesForBoundingBox(world: BoundingBox, q: BoundingBox, zoom: nat)
    returns (codes: seq<u64>)
    ensures codes == GeoHashes(world, q, zoom)
    ensures |codes| <= Pow4(zoom)
    ensures zoom == 0 ==> codes == [1]
    ensures zoom <= 31 ==> forall c :: c in codes ==> Pow4(zoom) <= c < 2 * Pow4(zoom)
    ensures WellFormed(world) && !Intersects(world, q) && zoom >= 1 ==> codes == []
  {
    var queue: seq<Cell> := [Root(world)];
    for round := 0 to zoom
      invariant queue == SearchCells(world, q, round)
    {
      queue := Round(queue, q);
    }
    codes := CollectCodes(queue);
    if zoom <= 31 {
      CodeWidth(world, q, zoom);
    }
    if WellFormed(world) && !Intersects(world, q) && zoom >= 1 {
      SearchTheorems.EmptyWhenDisjoint(world, q, zoom);
    }
  }
}
