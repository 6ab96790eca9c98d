/**
 * rebuild_all.py: rebuild streets.json and buildings.json around a centre
 * taken from North Illinois Street in OpenStreetMap. The longitude of the
 * centre is the mean longitude of the street's nodes, its latitude the
 * midpoint of their latitude range; the script stops when the street has no
 * nodes. Streets come from a second Overpass response and are kept when they
 * touch the map area; buildings come from the county footprints, stride
 * sampled, derived, sorted by distance and renumbered.
 *
 * Both Overpass responses and the footprint shapes are parameters; the
 * shapes are already in WGS84.
 */
module RebuildAll {
  import opened Seqs
  import opened Geo
  import opened Records
  import opened Osm
  import opened BuildingDerivation
  import ExtractDowntown

  // ---------------------------------------------------------------- the centre

  /** `illinois_coords`: for every way in order, the positions of its node
      ids that are in the node table. */
  function WayCoords(els: seq<Element>, nodes: map<nat, LonLat>): seq<LonLat>
  {
    if els == [] then []
    else
      var last := els[|els| - 1];
      WayCoords(els[..|els| - 1], nodes) + (if last.Way? then Resolved(NodeIds(last), nodes) else [])
  }

  /** Every collected coordinate is the position of a node id some way lists. */
  lemma {:induction false} WayCoordsFromTable(els: seq<Element>, nodes: map<nat, LonLat>)
    ensures forall c :: c in WayCoords(els, nodes) ==>
              exists el, id :: el in els && el.Way? && id in NodeIds(el) && id in nodes && nodes[id] == c
  {
    if els != [] {
      var init, last := els[..|els| - 1], els[|els| - 1];
      WayCoordsFromTable(init, nodes);
      assert forall el :: el in init ==> el in els;
    }
  }

  /** The inner loop over one way's node ids: `if nid in nodes: append`. */
  method ResolveCoords(ids: seq<nat>, nodes: map<nat, LonLat>) returns (coords: seq<LonLat>)
    ensures coords == Resolved(ids, nodes)
  {
    coords := [];
    var j := 0;
    while j < |ids|
      invariant 0 <= j <= |ids|
      invariant coords == Resolved(ids[..j], nodes)
    {
      var nid := ids[j];
      assert ids[..j + 1][..j] == ids[..j];
      if nid in nodes {
        coords := coords + [nodes[nid]];
      }
      j := j + 1;
    }
    assert ids[..j] == ids;
  }

  /** The outer loop that fills `illinois_coords`, over the elements. */
  method CollectCoords(els: seq<Element>, nodes: map<nat, LonLat>) returns (coords: seq<LonLat>)
    ensures coords == WayCoords(els, nodes)
  {
    coords := [];
    var i := 0;
    while i < |els|
      invariant 0 <= i <= |els|
      invariant coords == WayCoords(els[..i], nodes)
    {
      var el := els[i];
      assert els[..i + 1][..i] == els[..i];
      if el.Way? {
        var more := ResolveCoords(NodeIds(el), nodes);
        coords := coords + more;
      }
      i := i + 1;
    }
    assert els[..i] == els;
  }

  function Lons(cs: seq<LonLat>): seq<real>
  {
    seq(|cs|, k requires 0 <= k < |cs| => cs[k].lon)
  }

  function Lats(cs: seq<LonLat>): seq<real>
  {
    seq(|cs|, k requires 0 <= k < |cs| => cs[k].lat)
  }

  /** The new centre, or `None` where the script exits: the mean longitude
      and the mid-range latitude of the coordinates, which lies inside their
      bounding box. */
  function IllinoisCentre(coords: seq<LonLat>): (c: Option<LonLat>)
    ensures c.None? <==> coords == []
    ensures c.Some? ==> c.value.lon == Mean(Lons(coords))
    ensures c.Some? ==> c.value.lat == (Min(Lats(coords)) + Max(Lats(coords))) / 2.0
    ensures c.Some? ==> Min(Lons(coords)) <= c.value.lon <= Max(Lons(coords))
    ensures c.Some? ==> Min(Lats(coords)) <= c.value.lat <= Max(Lats(coords))
  {
    if coords == [] then None
    else
      MeanBetween(Lons(coords));
      Some(LonLat(Mean(Lons(coords)), (Min(Lats(coords)) + Max(Lats(coords))) / 2.0))
  }

  /** A street running due north (every node on one longitude) gets that
      longitude as the centre's, so it becomes the line x = 0. */
  lemma StraightStreetIsMeridian(coords: seq<LonLat>, lon: real)
    requires coords != []
    requires forall k :: 0 <= k < |coords| ==> coords[k].lon == lon
    ensures IllinoisCentre(coords).Some?
    ensures IllinoisCentre(coords).value.lon == lon
    ensures forall k :: 0 <= k < |coords| ==> ToLocal(IllinoisCentre(coords).value, coords[k]).x == 0.0
  {
    assert lon in Lons(coords);
  }

  // ---------------------------------------------------------------- streets

  /** `street_types` of rebuild_all.py. */
  const StreetTypes: map<string, Style> := map[
    "primary" := Style(10, "#3a3a4a"),
    "secondary" := Style(8, "#3a3a4a"),
    "tertiary" := Style(7, "#353545"),
    "residential" := Style(6, "#353545"),
    "service" := Style(4, "#303040")]

  /** A highway type outside the table keeps its name but is drawn as a
      residential street. */
  lemma UnknownTypeDrawnResidential(kind: string)
    requires kind !in {"primary", "secondary", "tertiary", "residential", "service"}
    ensures StyleFor(StreetTypes, kind) == Style(6, "#353545")
  {
  }

  /** `-900 < x < 900 and -800 < z < 600`. */
  predicate InArea(p: Point)
  {
    -900.0 < p.x < 900.0 && -800.0 < p.z < 600.0
  }

  predicate TouchesArea(s: Street)
  {
    exists p :: p in s.points && InArea(p)
  }

  /** `[s for s in streets if any(... for p in s['points'])]`. */
  function AreaFilter(streets: seq<Street>): seq<Street>
  {
    Filter(streets, TouchesArea)
  }

  /** The filter keeps exactly the streets with a point strictly inside the
      area, unchanged and in their original order. */
  lemma AreaFilterKeeps(streets: seq<Street>)
    ensures forall s :: s in AreaFilter(streets) <==> s in streets && exists p :: p in s.points && InArea(p)
    ensures IsSubsequence(AreaFilter(streets), streets)
  {
    FilterSubsequence(streets, TouchesArea);
  }

  // ---------------------------------------------------------------- buildings

  /** The footprint of an in-bounds shape: all points converted, then every
      `step`-th kept. Unlike extract_downtown.py the ring is not re-closed. */
  function Footprint(centre: LonLat, shape: seq<LonLat>): (r: seq<Point>)
    ensures shape != [] ==> r != [] && r[0] == ToLocal(centre, shape[0])
    ensures IsSubsequence(r, ToLocalAll(centre, shape))
  {
    StrideSubsequence(ToLocalAll(centre, shape), ExtractDowntown.StepFor(|shape|));
    Stride(ToLocalAll(centre, shape), ExtractDowntown.StepFor(|shape|))
  }

  /** The building list after the shape loop. */
  function ShapeBuildings(shapes: seq<seq<LonLat>>, centre: LonLat): seq<Building>
  {
    if shapes == [] then []
    else AddShape(ShapeBuildings(shapes[..|shapes| - 1], centre), shapes[|shapes| - 1], centre)
  }

  /** One iteration of the shape loop: a shape that is empty or whose first
      point lies outside downtown is skipped; otherwise its building, if not
      tiny, is appended and numbered one past the buildings already kept. */
  function AddShape(acc: seq<Building>, shape: seq<LonLat>, centre: LonLat): seq<Building>
  {
    if shape == [] || !ExtractDowntown.InDowntown(shape[0]) then acc
    else
      match DeriveBuilding(BuildingId(|acc| + 1), Footprint(centre, shape))
      case None => acc
      case Some(b) => acc + [b]
  }

  /** `b` is valid and its footprint is a sample, starting at the first
      point, of a shape in `shapes` whose first point is downtown. */
  ghost predicate SampledFrom(b: Building, shapes: seq<seq<LonLat>>, centre: LonLat)
  {
    && ValidBuilding(b)
    && exists shape :: shape in shapes && SampleOf(b.footprint, shape, centre)
  }

  ghost predicate SampleOf(footprint: seq<Point>, shape: seq<LonLat>, centre: LonLat)
  {
    && shape != [] && ExtractDowntown.InDowntown(shape[0])
    && footprint != []
    && IsSubsequence(footprint, ToLocalAll(centre, shape))
    && footprint[0] == ToLocal(centre, shape[0])
  }

  /** Building `i` of a list is `bldg-{i+1}`. */
  ghost predicate NumberedInOrder(bs: seq<Building>)
  {
    forall i :: 0 <= i < |bs| ==> bs[i].id == BuildingId(i + 1)
  }

  /** One iteration keeps the list numbered in order. */
  lemma AddShapeNumbered(acc: seq<Building>, shape: seq<LonLat>, centre: LonLat)
    requires NumberedInOrder(acc)
    ensures NumberedInOrder(AddShape(acc, shape, centre))
    ensures |AddShape(acc, shape, centre)| <= |acc| + 1
  {
    var r := AddShape(acc, shape, centre);
    if shape != [] && ExtractDowntown.InDowntown(shape[0]) {
      var d := DeriveBuilding(BuildingId(|acc| + 1), Footprint(centre, shape));
      if d.Some? {
        NumberedSnoc(acc, d.value);
      }
    }
  }

  lemma NumberedSnoc(acc: seq<Building>, b: Building)
    requires NumberedInOrder(acc) && b.id == BuildingId(|acc| + 1)
    ensures NumberedInOrder(acc + [b])
  {
  }

  /** Every building one iteration adds is valid and sampled from the shape. */
  lemma AddShapeSampled(acc: seq<Building>, shape: seq<LonLat>, centre: LonLat)
    ensures forall b :: b in AddShape(acc, shape, centre) ==> b in acc || SampledFrom(b, [shape], centre)
  {
    if shape != [] && ExtractDowntown.InDowntown(shape[0]) {
      var d := DeriveBuilding(BuildingId(|acc| + 1), Footprint(centre, shape));
      if d.Some? {
        FootprintSample(centre, shape);
        SampledSnoc(acc, d.value, shape, centre);
      }
    }
  }

  lemma FootprintSample(centre: LonLat, shape: seq<LonLat>)
    requires shape != [] && ExtractDowntown.InDowntown(shape[0])
    ensures SampleOf(Footprint(centre, shape), shape, centre)
  {
  }

  lemma SampledSnoc(acc: seq<Building>, b: Building, shape: seq<LonLat>, centre: LonLat)
    requires ValidBuilding(b) && SampleOf(b.footprint, shape, centre)
    ensures forall x :: x in acc + [b] ==> x in acc || SampledFrom(x, [shape], centre)
  {
    assert shape in [shape];
  }

  /** Before sorting, building `i` is `bldg-{i+1}`, and every building is
      valid and sampled from a downtown shape. */
  lemma {:induction false} ShapeBuildingsProperties(shapes: seq<seq<LonLat>>, centre: LonLat)
    ensures |ShapeBuildings(shapes, centre)| <= |shapes|
    ensures NumberedInOrder(ShapeBuildings(shapes, centre))
    ensures forall b :: b in ShapeBuildings(shapes, centre) ==> SampledFrom(b, shapes, centre)
  {
    if shapes != [] {
      var init, shape := shapes[..|shapes| - 1], shapes[|shapes| - 1];
      ShapeBuildingsProperties(init, centre);
      var acc := ShapeBuildings(init, centre);
      AddShapeNumbered(acc, shape, centre);
      AddShapeSampled(acc, shape, centre);
      forall b | b in ShapeBuildings(shapes, centre) ensures SampledFrom(b, shapes, centre) {
        if b in acc {
          var w :| w in init && SampleOf(b.footprint, w, centre);
          assert w in shapes;
        } else {
          assert SampledFrom(b, [shape], centre);
          assert shape in shapes;
        }
      }
    }
  }

  /** The shape loop of step 3. */
  method CollectShapes(shapes: seq<seq<LonLat>>, centre: LonLat) returns (buildings: seq<Building>)
    ensures buildings == ShapeBuildings(shapes, centre)
  {
    buildings := [];
    var i := 0;
    while i < |shapes|
      invariant 0 <= i <= |shapes|
      invariant buildings == ShapeBuildings(shapes[..i], centre)
    {
      var shape := shapes[i];
      assert shapes[..i + 1][..i] == shapes[..i];
      if shape != [] && ExtractDowntown.InDowntown(shape[0]) {
        var localPoints := ConvertPoints(centre, shape);
        localPoints := Stride(localPoints, ExtractDowntown.StepFor(|localPoints|));
        var building := DeriveBuilding(BuildingId(|buildings| + 1), localPoints);
        if building.Some? {
          buildings := buildings + [building.value];
        }
      }
      i := i + 1;
    }
    assert shapes[..i] == shapes;
  }

  // ---------------------------------------------------------------- the script

  datatype Rebuilt = Rebuilt(centre: LonLat, streets: seq<Street>, buildings: seq<Building>)

  /** The whole script: `None` where it exits for want of Illinois Street. */
  method Rebuild(illinois: seq<Element>, response: seq<Element>, shapes: seq<seq<LonLat>>)
    returns (r: Option<Rebuilt>)
    ensures r.None? <==> WayCoords(illinois, NodeTable(illinois)) == []
    ensures r.Some? ==>
              var centre := IllinoisCentre(WayCoords(illinois, NodeTable(illinois))).value;
              && r.value.centre == centre
              && r.value.streets == AreaFilter(Streets(response, NodeTable(response), centre, StreetTypes))
              && r.value.buildings == Renumbered(SortByDistance(ShapeBuildings(shapes, centre)))
    ensures r.Some? ==>
              && (forall s :: s in r.value.streets ==> |s.points| >= 2 && TouchesArea(s))
              && SortedByDistance(r.value.buildings)
              && (forall i :: 0 <= i < |r.value.buildings| ==>
                    r.value.buildings[i].id == BuildingId(i + 1)
                    && r.value.buildings[i].color == Some(Palette[i % 14]))
              && (forall b :: b in r.value.buildings ==> ValidBuilding(b))
  {
    var coords := CollectCoords(illinois, NodeTable(illinois));
    if coords == [] {
      return None;
    }
    var centre := IllinoisCentre(coords).value;
    var nodes := NodeTable(response);
    var streets := CollectStreets(response, nodes, centre, StreetTypes);
    StreetsSound(response, nodes, centre, StreetTypes);
    streets := AreaFilter(streets);
    var buildings := CollectShapes(shapes, centre);
    ShapeBuildingsProperties(shapes, centre);
    FinishedProperties(buildings);
    buildings := SortByDistance(buildings);
    buildings := RenumberAndColour(buildings);
    r := Some(Rebuilt(centre, streets, buildings));
  }
}
