/**
 * extract_downtown.py: building footprints of downtown Belleville from the
 * county shapefile, converted to local metres around Public Square,
 * simplified, turned into building records, sorted by distance from the
 * square and renumbered.
 *
 * Shapes arrive already projected to WGS84 (lon, lat): the shapefile reader
 * and the State Plane transform are not part of this model.
 */
module ExtractDowntown {
  import opened Geo
  import opened Seqs
  import opened Records
  import opened BuildingDerivation

  /** Downtown Belleville in WGS84 degrees. */
  const MinLat: real := 38.516
  const MaxLat: real := 38.526
  const MinLon: real := -89.993
  const MaxLon: real := -89.975

  /** Public Square fountain, the origin of the local frame. */
  const Center: LonLat := LonLat(-89.9839, 38.5200)

  predicate InDowntown(p: LonLat)
  {
    MinLat <= p.lat <= MaxLat && MinLon <= p.lon <= MaxLon
  }

  /** `convert_to_local`: metres east and south of Public Square. */
  function ConvertToLocal(p: LonLat): (r: Point)
    ensures p == Center ==> r == Point(0.0, 0.0)
    ensures r.z > 0.0 <==> p.lat < Center.lat
  {
    ToLocal(Center, p)
  }

  /** `max(1, len(points) // 20)`. */
  function StepFor(n: nat): (step: nat)
    ensures step >= 1
    ensures 4 < n ==> step < n
  {
    if n / 20 >= 1 then n / 20 else 1
  }

  /** `simplify_polygon`: short rings unchanged; longer ones sampled every
      `step` points and closed by repeating the first point if needed. */
  function SimplifyPolygon(points: seq<Point>): (r: seq<Point>)
    ensures |points| <= 4 ==> r == points
    ensures |points| > 4 ==>
              var s := Stride(points, StepFor(|points|));
              && (r == s || r == s + [points[0]])
              && IsSubsequence(s, points)
              && 2 <= |r| <= |points| + 1
              && r[0] == points[0] && r[|r| - 1] == points[0]
    ensures |points| > 4 ==>
              var s := Stride(points, StepFor(|points|));
              (r == s <==> s[|s| - 1] == points[0])
  {
    if |points| <= 4 then points
    else
      var simplified := Stride(points, StepFor(|points|));
      StrideSubsequence(points, StepFor(|points|));
      if simplified[0] != simplified[|simplified| - 1] then simplified + [simplified[0]]
      else simplified
  }

  /** The loop state of `main`: the buildings so far and `in_bounds`. */
  datatype Collected = Collected(buildings: seq<Building>, inBounds: nat)

  /** One iteration of the shape loop. */
  function ShapeStep(acc: Collected, shape: seq<LonLat>): Collected
  {
    if shape == [] || !InDowntown(shape[0]) then acc
    else
      var n := acc.inBounds + 1;
      var footprint := SimplifyPolygon(ToLocalAll(Center, shape));
      match DeriveBuilding(BuildingId(n), footprint)
      case None => Collected(acc.buildings, n)
      case Some(b) => Collected(acc.buildings + [b], n)
  }

  /** The state after the shape loop has run over `shapes`. */
  function CollectAll(shapes: seq<seq<LonLat>>): Collected
  {
    if shapes == [] then Collected([], 0)
    else ShapeStep(CollectAll(shapes[..|shapes| - 1]), shapes[|shapes| - 1])
  }

  /** The invariant of the shape loop: at most one building per in-bounds
      shape, and every building valid, unnamed and uncoloured. */
  ghost predicate CollectedInvariant(c: Collected, n: nat)
  {
    && |c.buildings| <= c.inBounds <= n
    && forall b :: b in c.buildings ==> ValidBuilding(b) && b.name.None? && b.color.None?
  }

  /** One iteration keeps the invariant. */
  lemma ShapeStepKeeps(acc: Collected, shape: seq<LonLat>, n: nat)
    requires CollectedInvariant(acc, n)
    ensures CollectedInvariant(ShapeStep(acc, shape), n + 1)
  {
    if shape != [] && InDowntown(shape[0]) {
      var footprint := SimplifyPolygon(ToLocalAll(Center, shape));
      var r := DeriveBuilding(BuildingId(acc.inBounds + 1), footprint);
      if r.Some? {
        var b := r.value;
        assert b.name.None? && b.color.None?;
        assert ShapeStep(acc, shape) == Collected(acc.buildings + [b], acc.inBounds + 1);
        assert forall c :: c in acc.buildings + [b] ==> c in acc.buildings || c == b;
      } else {
        assert ShapeStep(acc, shape) == Collected(acc.buildings, acc.inBounds + 1);
      }
    }
  }

  /** Every collected building is valid and comes from an in-bounds shape;
      `in_bounds` counts those shapes, kept or skipped as tiny. */
  lemma {:induction false} CollectAllProperties(shapes: seq<seq<LonLat>>)
    ensures var c := CollectAll(shapes);
            && |c.buildings| <= c.inBounds <= |shapes|
            && forall b :: b in c.buildings ==> ValidBuilding(b) && b.name.None? && b.color.None?
  {
    if shapes != [] {
      var init, shape := shapes[..|shapes| - 1], shapes[|shapes| - 1];
      CollectAllProperties(init);
      ShapeStepKeeps(CollectAll(init), shape, |init|);
    }
  }

  /** The body of the shape loop: skip a shape that is empty or starts
      outside the area, otherwise count it, convert, simplify and derive. */
  method ProcessShape(buildings: seq<Building>, inBounds: nat, points: seq<LonLat>)
    returns (buildings': seq<Building>, inBounds': nat)
    ensures Collected(buildings', inBounds') == ShapeStep(Collected(buildings, inBounds), points)
  {
    buildings', inBounds' := buildings, inBounds;
    if points != [] && InDowntown(points[0]) {
      inBounds' := inBounds + 1;
      var localPoints := ConvertPoints(Center, points);
      localPoints := SimplifyPolygon(localPoints);
      var building := DeriveBuilding(BuildingId(inBounds'), localPoints);
      if building.Some? {
        buildings' := buildings + [building.value];
      }
    }
  }

  /** The shape loop of `main`. */
  method CollectBuildings(shapes: seq<seq<LonLat>>) returns (buildings: seq<Building>, inBounds: nat)
    ensures Collected(buildings, inBounds) == CollectAll(shapes)
  {
    buildings, inBounds := [], 0;
    var i := 0;
    while i < |shapes|
      invariant 0 <= i <= |shapes|
      invariant Collected(buildings, inBounds) == CollectAll(shapes[..i])
    {
      assert shapes[..i + 1][..i] == shapes[..i];
      buildings, inBounds := ProcessShape(buildings, inBounds, shapes[i]);
      i := i + 1;
    }
    assert shapes[..i] == shapes;
  }

  /** `main` without its file I/O: collect, sort by distance, renumber and
      colour. */
  method ExtractBuildings(shapes: seq<seq<LonLat>>) returns (buildings: seq<Building>)
    ensures buildings == Renumbered(SortByDistance(CollectAll(shapes).buildings))
    ensures |buildings| <= |shapes|
    ensures SortedByDistance(buildings)
    ensures forall i :: 0 <= i < |buildings| ==>
              buildings[i].id == BuildingId(i + 1) && buildings[i].color == Some(Palette[i % 14])
    ensures forall i, j :: 0 <= i < j < |buildings| ==> buildings[i].id != buildings[j].id
    ensures forall b :: b in buildings ==> ValidBuilding(b)
  {
    var collected, inBounds := CollectBuildings(shapes);
    CollectAllProperties(shapes);
    FinishedProperties(collected);
    collected := SortByDistance(collected);
    buildings := RenumberAndColour(collected);
  }
}
