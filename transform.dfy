/**
 * The operations the alignment and recentering scripts share: the bounding
 * box of all building footprints, the rigid translation of streets and
 * buildings, and the filter that keeps the streets touching a box.
 */
module Transform {
  import opened Seqs
  import opened Geo
  import opened Records

  // ---------------------------------------------------------------- boxes

  /** `[pt for b in buildings for pt in b['footprint']]`. */
  function FootprintPoints(buildings: seq<Building>): seq<Point>
  {
    Flatten(Footprints(buildings))
  }

  /** `[pt for s in streets for pt in s['points']]`. */
  function AllStreetPoints(streets: seq<Street>): seq<Point>
  {
    Flatten(StreetPoints(streets))
  }

  /** The box `min(xs)..max(xs)`, `min(zs)..max(zs)` of all footprint points,
      or `None` when there is none (Python's `min` of an empty list raises,
      and the script stops). The box holds every footprint point. */
  function FootprintBox(buildings: seq<Building>): (r: Option<Box>)
    ensures r.None? <==> forall i :: 0 <= i < |buildings| ==> buildings[i].footprint == []
    ensures r.Some? ==> FootprintPoints(buildings) != [] && r.value == BoundsOf(FootprintPoints(buildings))
    ensures r.Some? ==> forall i, p :: 0 <= i < |buildings| && p in buildings[i].footprint ==> InBox(p, r.value)
  {
    var pts := FootprintPoints(buildings);
    FlattenSpec(Footprints(buildings));
    assert forall i :: 0 <= i < |buildings| ==> Footprints(buildings)[i] == buildings[i].footprint;
    if pts == [] then None else Some(BoundsOf(pts))
  }

  // ---------------------------------------------------------------- translation

  /** A street with every point shifted by `(dx, dz)`. */
  function ShiftedStreet(s: Street, dx: real, dz: real): Street
  {
    s.(points := Translate(s.points, dx, dz))
  }

  function ShiftedStreets(streets: seq<Street>, dx: real, dz: real): (r: seq<Street>)
    ensures |r| == |streets|
  {
    seq(|streets|, k requires 0 <= k < |streets| => ShiftedStreet(streets[k], dx, dz))
  }

  /** Shifting changes only the points: ids, names, types and styles stay,
      and every point moves by exactly `(dx, dz)` keeping count and order. */
  lemma ShiftedStreetsKeep(streets: seq<Street>, dx: real, dz: real)
    ensures forall k :: 0 <= k < |streets| ==>
              var s, t := streets[k], ShiftedStreets(streets, dx, dz)[k];
              && t.id == s.id && t.name == s.name && t.kind == s.kind && t.style == s.style
              && |t.points| == |s.points|
              && forall j :: 0 <= j < |s.points| ==> t.points[j] == Point(s.points[j].x + dx, s.points[j].z + dz)
  {
  }

  /** Two shifts are one shift by the sum of the offsets. */
  lemma ShiftedStreetsCompose(streets: seq<Street>, dx1: real, dz1: real, dx2: real, dz2: real)
    ensures ShiftedStreets(ShiftedStreets(streets, dx1, dz1), dx2, dz2) == ShiftedStreets(streets, dx1 + dx2, dz1 + dz2)
  {
    forall k | 0 <= k < |streets| {
      TranslateCompose(streets[k].points, dx1, dz1, dx2, dz2);
    }
  }

  /** The points of the shifted streets are the shifted points of the streets. */
  lemma {:induction false} StreetPointsOfShift(streets: seq<Street>, dx: real, dz: real)
    ensures AllStreetPoints(ShiftedStreets(streets, dx, dz)) == Translate(AllStreetPoints(streets), dx, dz)
  {
    if streets != [] {
      var t := ShiftedStreets(streets, dx, dz);
      StreetPointsOfShift(streets[1..], dx, dz);
      assert StreetPoints(t)[1..] == StreetPoints(ShiftedStreets(streets[1..], dx, dz));
      assert StreetPoints(streets)[1..] == StreetPoints(streets[1..]);
      assert Translate(streets[0].points + AllStreetPoints(streets[1..]), dx, dz)
          == Translate(streets[0].points, dx, dz) + Translate(AllStreetPoints(streets[1..]), dx, dz);
    }
  }

  /** The loop `for street in streets: street['points'] = [...]`, which
      rewrites each street in place. */
  method ShiftStreets(streets: seq<Street>, dx: real, dz: real) returns (shifted: seq<Street>)
    ensures shifted == ShiftedStreets(streets, dx, dz)
  {
    shifted := streets;
    var i := 0;
    while i < |shifted|
      invariant 0 <= i <= |shifted| == |streets|
      invariant forall k :: 0 <= k < i ==> shifted[k] == ShiftedStreet(streets[k], dx, dz)
      invariant forall k :: i <= k < |shifted| ==> shifted[k] == streets[k]
    {
      var pts := shifted[i].points;
      shifted := shifted[i := shifted[i].(points := Translate(pts, dx, dz))];
      i := i + 1;
    }
  }

  /** A building with its position (x and z only) and its footprint shifted
      by `(dx, dz)`. */
  function ShiftedBuilding(b: Building, dx: real, dz: real): Building
  {
    b.(position := Vec3(Round1(b.position.x + dx), b.position.y, Round1(b.position.z + dz)),
       footprint := Translate(b.footprint, dx, dz))
  }

  function ShiftedBuildings(buildings: seq<Building>, dx: real, dz: real): (r: seq<Building>)
    ensures |r| == |buildings|
  {
    seq(|buildings|, k requires 0 <= k < |buildings| => ShiftedBuilding(buildings[k], dx, dz))
  }

  /** Shifting moves the position in x and z and every footprint point by
      exactly `(dx, dz)`; the height coordinate, the id, name, size and colour
      stay. */
  lemma ShiftedBuildingsKeep(buildings: seq<Building>, dx: real, dz: real)
    ensures forall k :: 0 <= k < |buildings| ==>
              var b, c := buildings[k], ShiftedBuildings(buildings, dx, dz)[k];
              && c.id == b.id && c.name == b.name && c.size == b.size && c.color == b.color
              && c.position == Vec3(b.position.x + dx, b.position.y, b.position.z + dz)
              && |c.footprint| == |b.footprint|
              && forall j :: 0 <= j < |b.footprint| ==> c.footprint[j] == Point(b.footprint[j].x + dx, b.footprint[j].z + dz)
  {
  }

  /** Two shifts are one shift by the sum of the offsets. */
  lemma ShiftedBuildingsCompose(buildings: seq<Building>, dx1: real, dz1: real, dx2: real, dz2: real)
    ensures ShiftedBuildings(ShiftedBuildings(buildings, dx1, dz1), dx2, dz2) == ShiftedBuildings(buildings, dx1 + dx2, dz1 + dz2)
  {
    forall k | 0 <= k < |buildings| {
      TranslateCompose(buildings[k].footprint, dx1, dz1, dx2, dz2);
    }
  }

  /** The loop over the buildings that moves each position and rewrites each
      footprint in place. */
  method ShiftBuildings(buildings: seq<Building>, dx: real, dz: real) returns (shifted: seq<Building>)
    ensures shifted == ShiftedBuildings(buildings, dx, dz)
  {
    shifted := buildings;
    var i := 0;
    while i < |shifted|
      invariant 0 <= i <= |shifted| == |buildings|
      invariant forall k :: 0 <= k < i ==> shifted[k] == ShiftedBuilding(buildings[k], dx, dz)
      invariant forall k :: i <= k < |shifted| ==> shifted[k] == buildings[k]
    {
      var b := shifted[i];
      var position := Vec3(Round1(b.position.x + dx), b.position.y, Round1(b.position.z + dz));
      var footprint := Translate(b.footprint, dx, dz);
      shifted := shifted[i := b.(position := position, footprint := footprint)];
      i := i + 1;
    }
  }

  // ---------------------------------------------------------------- filtering

  /** `any(min_x <= pt[0] <= max_x and min_z <= pt[1] <= max_z for pt in s['points'])`. */
  predicate Touches(s: Street, box: Box)
  {
    exists p :: p in s.points && InBox(p, box)
  }

  function Touching(streets: seq<Street>, box: Box): seq<Street>
  {
    Filter(streets, s => Touches(s, box))
  }

  /** A street is kept exactly when one of its points lies in the box; kept
      streets are unchanged (not clipped) and keep their order. */
  lemma TouchingSpec(streets: seq<Street>, box: Box)
    ensures forall s :: s in Touching(streets, box) <==> s in streets && Touches(s, box)
    ensures IsSubsequence(Touching(streets, box), streets)
    ensures |Touching(streets, box)| <= |streets|
  {
    FilterSubsequence(streets, s => Touches(s, box));
  }

  /** The filtering loop: `if any(...): filtered.append(s)`. */
  method KeepTouching(streets: seq<Street>, box: Box) returns (filtered: seq<Street>)
    ensures filtered == Touching(streets, box)
  {
    filtered := [];
    var i := 0;
    while i < |streets|
      invariant 0 <= i <= |streets|
      invariant filtered == Touching(streets[..i], box)
    {
      assert streets[..i + 1][..i] == streets[..i];
      var s := streets[i];
      if Touches(s, box) {
        filtered := filtered + [s];
      }
      i := i + 1;
    }
    assert streets[..i] == streets;
  }
}
