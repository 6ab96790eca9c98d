/**
 * finalize_streets.py: the last pass over streets.json. The streets are
 * clipped to the box of all building footprints grown by 30 m, and a street
 * is dropped when fewer than two of its points are left inside.
 *
 * The files are parameters and results; the printed statistics (counts by
 * type, named streets) are not part of this model.
 */
module FinalizeStreets {
  import opened Seqs
  import opened Geo
  import opened Records
  import opened Transform

  const Margin: real := 30.0

  /** The filter box: the footprint box grown by the margin on every side,
      or `None` when there is no footprint point. */
  function FilterArea(buildings: seq<Building>): (r: Option<Box>)
    ensures r.None? <==> forall i :: 0 <= i < |buildings| ==> buildings[i].footprint == []
    ensures r.Some? ==> FootprintPoints(buildings) != [] && r.value == Expand(BoundsOf(FootprintPoints(buildings)), Margin)
  {
    var box := FootprintBox(buildings);
    if box.Some? then Some(Expand(box.value, Margin)) else None
  }

  /** Every footprint point lies at least the margin inside the filter box,
      and each side of the box lies exactly the margin beyond some footprint
      point. */
  lemma FilterAreaMargin(buildings: seq<Building>)
    requires FilterArea(buildings).Some?
    ensures forall i, p :: 0 <= i < |buildings| && p in buildings[i].footprint ==>
              var e := FilterArea(buildings).value;
              && e.minX + Margin <= p.x <= e.maxX - Margin
              && e.minZ + Margin <= p.z <= e.maxZ - Margin
    ensures var e := FilterArea(buildings).value;
            && (exists i, p :: 0 <= i < |buildings| && p in buildings[i].footprint && p.x == e.minX + Margin)
            && (exists i, p :: 0 <= i < |buildings| && p in buildings[i].footprint && p.x == e.maxX - Margin)
            && (exists i, p :: 0 <= i < |buildings| && p in buildings[i].footprint && p.z == e.minZ + Margin)
            && (exists i, p :: 0 <= i < |buildings| && p in buildings[i].footprint && p.z == e.maxZ - Margin)
  {
    var b := FootprintBox(buildings).value;
    forall i, p | 0 <= i < |buildings| && p in buildings[i].footprint
      ensures b.minX <= p.x <= b.maxX && b.minZ <= p.z <= b.maxZ
    {
      assert InBox(p, b);
    }
    FlattenSpec(Footprints(buildings));
    assert forall i :: 0 <= i < |buildings| ==> Footprints(buildings)[i] == buildings[i].footprint;
  }

  /** `[pt for pt in s['points'] if min_x <= pt[0] <= max_x and ...]`. */
  function InBoxPoints(pts: seq<Point>, box: Box): (r: seq<Point>)
    ensures forall p :: p in r <==> p in pts && InBox(p, box)
  {
    Filter(pts, p => InBox(p, box))
  }

  /** The in-box points are the street's points in their original order. */
  lemma InBoxPointsInOrder(pts: seq<Point>, box: Box)
    ensures IsSubsequence(InBoxPoints(pts, box), pts)
  {
    FilterSubsequence(pts, p => InBox(p, box));
  }

  /** One street after clipping, or `None` when fewer than two of its points
      are in the box; only the points change. */
  function Clipped(s: Street, box: Box): (r: Option<Street>)
    ensures r.Some? <==> |InBoxPoints(s.points, box)| >= 2
    ensures r.Some? ==> r.value.id == s.id && r.value.name == s.name && r.value.kind == s.kind && r.value.style == s.style
    ensures r.Some? ==> forall p :: p in r.value.points ==> p in s.points && InBox(p, box)
  {
    var pts := InBoxPoints(s.points, box);
    if |pts| >= 2 then Some(s.(points := pts)) else None
  }

  function ClipperOf(box: Box): Street -> Option<Street>
  {
    s => Clipped(s, box)
  }

  /** The streets that survive, clipped. */
  function Finalized(streets: seq<Street>, box: Box): seq<Street>
  {
    FilterMap(streets, ClipperOf(box))
  }

  /** Every kept street has at least two points, all inside the box, and is
      a street of the input with only its points replaced by the in-box ones
      (an order-preserving subsequence of its old points). */
  lemma FinalizedSound(streets: seq<Street>, box: Box)
    ensures |Finalized(streets, box)| <= |streets|
    ensures forall t :: t in Finalized(streets, box) ==>
              && |t.points| >= 2
              && (forall p :: p in t.points ==> InBox(p, box))
              && exists s :: s in streets && t == s.(points := InBoxPoints(s.points, box)) && IsSubsequence(t.points, s.points)
  {
    forall t | t in Finalized(streets, box)
      ensures exists s :: s in streets && t == s.(points := InBoxPoints(s.points, box)) && IsSubsequence(t.points, s.points)
    {
      var s :| s in streets && ClipperOf(box)(s) == Some(t);
      InBoxPointsInOrder(s.points, box);
    }
  }

  /** Every street with at least two points in the box is kept. */
  lemma FinalizedComplete(streets: seq<Street>, box: Box)
    ensures forall s :: s in streets && |InBoxPoints(s.points, box)| >= 2 ==>
              s.(points := InBoxPoints(s.points, box)) in Finalized(streets, box)
  {
    forall s | s in streets && |InBoxPoints(s.points, box)| >= 2
      ensures s.(points := InBoxPoints(s.points, box)) in Finalized(streets, box)
    {
      assert ClipperOf(box)(s) == Some(s.(points := InBoxPoints(s.points, box)));
    }
  }

  /** Kept streets come in the order of the input. */
  lemma FinalizedInOrder(streets: seq<Street>, box: Box)
    ensures exists idx: seq<nat> :: PickedAt(Finalized(streets, box), streets, ClipperOf(box), idx)
  {
    FilterMapInOrder(streets, ClipperOf(box));
    assert Finalized(streets, box) == FilterMap(streets, ClipperOf(box));
  }

  /** The filter-and-clip loop, which overwrites `s['points']` and appends
      the street to `filtered`. */
  method FilterAndClip(streets: seq<Street>, box: Box) returns (filtered: seq<Street>)
    ensures filtered == Finalized(streets, box)
  {
    filtered := [];
    var i := 0;
    while i < |streets|
      invariant 0 <= i <= |streets|
      invariant filtered == Finalized(streets[..i], box)
    {
      assert streets[..i + 1][..i] == streets[..i];
      var s := streets[i];
      var ptsInBounds := InBoxPoints(s.points, box);
      if |ptsInBounds| >= 2 {
        s := s.(points := ptsInBounds);
        filtered := filtered + [s];
      }
      i := i + 1;
    }
    assert streets[..i] == streets;
  }

  /** The script: `None` when there is no footprint point (the script stops
      before writing), else the finalized streets. */
  method Finalize(streets: seq<Street>, buildings: seq<Building>) returns (r: Option<seq<Street>>)
    ensures r.None? <==> forall i :: 0 <= i < |buildings| ==> buildings[i].footprint == []
    ensures r.Some? ==> r.value == Finalized(streets, FilterArea(buildings).value)
    ensures r.Some? ==> |r.value| <= |streets|
    ensures r.Some? ==> forall t :: t in r.value ==> |t.points| >= 2 && forall p :: p in t.points ==> InBox(p, FilterArea(buildings).value)
  {
    var area := FilterArea(buildings);
    if area.None? {
      return None;
    }
    var filtered := FilterAndClip(streets, area.value);
    FinalizedSound(streets, area.value);
    r := Some(filtered);
  }
}
