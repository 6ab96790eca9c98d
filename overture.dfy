/**
 * scripts/fetch-overture-data.py: roads, buildings and land use of the
 * Overture Maps release around downtown Belleville, converted to local
 * metres by an equirectangular projection around the script's own centre.
 *
 * The DuckDB queries are not part of this model: their result rows are
 * parameters, with the GeoJSON geometry already parsed. `cosLat` stands for
 * `math.cos(math.radians(CENTER_LAT))` and `idHash` for Python's `hash(id_)`.
 */
module Overture {
  import opened Seqs
  import opened Geo
  import opened Records
  import BuildingDerivation

  /** `CENTER_LON`, `CENTER_LAT`. */
  const Center := LonLat(-89.9842, 38.5170)
  const RadiusKm: real := 1.2
  /** One degree of latitude is taken as 111 km. */
  const KmPerDegree: real := 111.0
  const MetresPerDegree: real := 111000.0

  // ---------------------------------------------------------------- bounding box

  /** `km_to_degrees`: the pair (degrees of latitude, degrees of longitude)
      that span `km` kilometres. A longitude degree is shorter, so the same
      distance spans at least as many degrees of longitude. */
  function KmToDegrees(km: real, cosLat: real): (r: (real, real))
    requires 0.0 < cosLat
    ensures r.0 * KmPerDegree == km
    ensures r.1 * (KmPerDegree * cosLat) == km
    ensures 0.0 <= km && cosLat <= 1.0 ==> r.0 <= r.1
  {
    var latDeg := km / KmPerDegree;
    var lonDeg := km / (KmPerDegree * cosLat);
    assert lonDeg * cosLat == latDeg;
    (latDeg, lonDeg)
  }

  /** The `min_lon`/`max_lon`/`min_lat`/`max_lat` dictionary of `create_bbox`. */
  datatype DegreeBox = DegreeBox(minLon: real, maxLon: real, minLat: real, maxLat: real)

  /** `create_bbox`: a box centred on `centre` whose half-height is the
      radius in degrees of latitude and whose half-width is the radius in
      degrees of longitude. */
  function CreateBBox(centre: LonLat, radiusKm: real, cosLat: real): (b: DegreeBox)
    requires 0.0 < cosLat
    ensures (b.minLon + b.maxLon) / 2.0 == centre.lon && (b.minLat + b.maxLat) / 2.0 == centre.lat
    ensures (b.maxLat - b.minLat) * KmPerDegree == 2.0 * radiusKm
    ensures (b.maxLon - b.minLon) * (KmPerDegree * cosLat) == 2.0 * radiusKm
    ensures 0.0 < radiusKm ==> b.minLon < centre.lon < b.maxLon && b.minLat < centre.lat < b.maxLat
    ensures 0.0 <= radiusKm && cosLat <= 1.0 ==> b.maxLat - b.minLat <= b.maxLon - b.minLon
  {
    var d := KmToDegrees(radiusKm, cosLat);
    DegreeBox(centre.lon - d.1, centre.lon + d.1, centre.lat - d.0, centre.lat + d.0)
  }

  // ---------------------------------------------------------------- projection

  /** `latlon_to_local`: metres east (x) and NORTH (z) of `centre`. Unlike the
      conversion of the OpenStreetMap scripts, z grows northwards. */
  function LatLonToLocal(centre: LonLat, p: LonLat, cosLat: real): (r: Point)
    ensures p == centre ==> r == Point(0.0, 0.0)
    ensures r.z > 0.0 <==> p.lat > centre.lat
    ensures 0.0 < cosLat ==> (r.x > 0.0 <==> p.lon > centre.lon)
  {
    var dLon := p.lon - centre.lon;
    var k := MetresPerDegree * cosLat;
    assert 0.0 < cosLat ==> (dLon * k > 0.0 <==> dLon > 0.0);
    Point(Round1(dLon * k), Round1((p.lat - centre.lat) * MetresPerDegree))
  }

  /** The inverse projection. */
  function LocalToLatLon(centre: LonLat, q: Point, cosLat: real): LonLat
    requires 0.0 < cosLat
  {
    LonLat(centre.lon + q.x / (MetresPerDegree * cosLat), centre.lat + q.z / MetresPerDegree)
  }

  /** The projection loses nothing (rounding aside). */
  lemma LatLonToLocalRoundTrip(centre: LonLat, p: LonLat, cosLat: real)
    requires 0.0 < cosLat
    ensures LocalToLatLon(centre, LatLonToLocal(centre, p, cosLat), cosLat) == p
  {
    var k := MetresPerDegree * cosLat;
    assert (p.lon - centre.lon) * k / k == p.lon - centre.lon;
  }

  /** The Overture z axis is the mirror image of the one `Geo.ToLocal` uses
      for the OpenStreetMap data: the same point has opposite z. */
  lemma OppositeNorth(centre: LonLat, p: LonLat, cosLat: real)
    ensures LatLonToLocal(centre, p, cosLat).z == -ToLocal(centre, p).z
  {
  }

  /** The coordinates of a list, converted around the script's centre. */
  function LocalAll(coords: seq<LonLat>, cosLat: real): (r: seq<Point>)
    ensures |r| == |coords|
  {
    seq(|coords|, k requires 0 <= k < |coords| => LatLonToLocal(Center, coords[k], cosLat))
  }

  // ---------------------------------------------------------------- geometry

  /** A GeoJSON polygon: its outer ring and its holes. */
  datatype Rings = Rings(outer: seq<LonLat>, holes: seq<seq<LonLat>>)

  /** The parsed `ST_AsGeoJSON(geometry)` of a row. */
  datatype Geometry =
    | LineString(coords: seq<LonLat>)
    | Polygon(polygon: Rings)
    | MultiPolygon(polygons: seq<Rings>)
    | OtherGeometry

  /** The outer rings a polygon row contributes, or `None` for any other
      geometry (the row is skipped). Holes are ignored. */
  function OuterRings(g: Geometry): (r: Option<seq<seq<LonLat>>>)
    ensures r.Some? <==> g.Polygon? || g.MultiPolygon?
    ensures g.Polygon? ==> r == Some([g.polygon.outer])
    ensures g.MultiPolygon? ==> |r.value| == |g.polygons|
    ensures g.MultiPolygon? ==> forall k :: 0 <= k < |g.polygons| ==> r.value[k] == g.polygons[k].outer
  {
    match g
    case Polygon(p) => Some([p.outer])
    case MultiPolygon(ps) => Some(seq(|ps|, k requires 0 <= k < |ps| => ps[k].outer))
    case _ => None
  }

  /** `ring[:-1]`: the ring without its closing point (empty for an empty ring). */
  function OpenRing(ring: seq<LonLat>): (r: seq<LonLat>)
    ensures |r| == if ring == [] then 0 else |ring| - 1
    ensures forall k :: 0 <= k < |r| ==> r[k] == ring[k]
  {
    if ring == [] then [] else ring[..|ring| - 1]
  }

  /** `name or ''`. */
  function OrEmpty(name: Option<string>): string
  {
    if name.Some? then name.value else ""
  }

  /** The id of ring `k` of row `id`: the bare prefixed id for the first
      ring, and `-k` appended for the others. */
  function RingId(prefix: string, id: string, k: nat): (r: string)
    ensures k == 0 ==> r == prefix + id
    ensures k > 0 ==> |r| > |prefix + id| + 1 && r[..|prefix + id|] == prefix + id
  {
    if k > 0 then prefix + id + "-" + NatToString(k) else prefix + id
  }

  /** Different rings of one row get different ids. */
  lemma RingIdsDistinct(prefix: string, id: string, j: nat, k: nat)
    requires j != k
    ensures RingId(prefix, id, j) != RingId(prefix, id, k)
  {
    if j > 0 && k > 0 && RingId(prefix, id, j) == RingId(prefix, id, k) {
      PrefixedNatInjective(prefix + id + "-", j, k);
    }
  }

  // ---------------------------------------------------------------- roads

  /** One row of the road query: `id`, `names.primary`, `class` and the
      geometry (`subclass` is not used). */
  datatype RoadRow = RoadRow(id: string, name: Option<string>, roadClass: Option<string>, geom: Geometry)

  /** `type_map` of `fetch_roads`. */
  const RoadTypeMap: map<string, string> := map[
    "motorway" := "primary",
    "trunk" := "primary",
    "primary" := "primary",
    "secondary" := "secondary",
    "tertiary" := "tertiary",
    "residential" := "residential",
    "service" := "service",
    "unclassified" := "residential",
    "living_street" := "residential"]

  /** The five street types the map draws. */
  const StreetKinds: set<string> := {"primary", "secondary", "tertiary", "residential", "service"}

  /** `type_map.get(road_class, 'residential')`: always one of the five
      drawn types; motorways and trunks become primary, a class that is
      already a drawn type is kept, and a missing or unknown class becomes
      residential. */
  function RoadType(roadClass: Option<string>): (t: string)
    ensures t in StreetKinds
    ensures roadClass == Some("motorway") || roadClass == Some("trunk") ==> t == "primary"
    ensures roadClass.Some? && roadClass.value in StreetKinds ==> t == roadClass.value
    ensures roadClass.None? || roadClass.value !in RoadTypeMap ==> t == "residential"
  {
    if roadClass.Some? && roadClass.value in RoadTypeMap then RoadTypeMap[roadClass.value] else "residential"
  }

  /** The street of one road row: only line strings are kept; Overture
      streets carry no width or colour. */
  function RoadOf(row: RoadRow, cosLat: real): Option<Street>
  {
    if row.geom.LineString? then
      Some(Street("street-" + row.id, OrEmpty(row.name), RoadType(row.roadClass), LocalAll(row.geom.coords, cosLat), None))
    else None
  }

  function Roads(rows: seq<RoadRow>, cosLat: real): seq<Street>
  {
    FilterMap(rows, row => RoadOf(row, cosLat))
  }

  predicate IsLineString(row: RoadRow)
  {
    row.geom.LineString?
  }

  /** Exactly the line-string rows yield streets, one each. */
  lemma {:induction false} RoadsCount(rows: seq<RoadRow>, cosLat: real)
    ensures |Roads(rows, cosLat)| == |Filter(rows, IsLineString)|
  {
    if rows != [] {
      RoadsCount(rows[..|rows| - 1], cosLat);
    }
  }

  /** Every street comes from a line-string row, keeps one point per
      coordinate, has a drawn type and no style. */
  lemma RoadsSound(rows: seq<RoadRow>, cosLat: real)
    ensures forall s :: s in Roads(rows, cosLat) ==>
              && s.kind in StreetKinds
              && s.style.None?
              && exists row :: row in rows && row.geom.LineString? && s.id == "street-" + row.id
                   && s.kind == RoadType(row.roadClass) && |s.points| == |row.geom.coords|
  {
    forall s | s in Roads(rows, cosLat)
      ensures exists row :: row in rows && row.geom.LineString? && s.id == "street-" + row.id
                && s.kind == RoadType(row.roadClass) && |s.points| == |row.geom.coords|
    {
      var row :| row in rows && RoadOf(row, cosLat) == Some(s);
    }
  }

  /** The loop of `fetch_roads`. */
  method FetchRoads(rows: seq<RoadRow>, cosLat: real) returns (streets: seq<Street>)
    ensures streets == Roads(rows, cosLat)
  {
    streets := [];
    var i := 0;
    while i < |rows|
      invariant 0 <= i <= |rows|
      invariant streets == Roads(rows[..i], cosLat)
    {
      assert rows[..i + 1][..i] == rows[..i];
      var row := rows[i];
      if row.geom.LineString? {
        var points := LocalAll(row.geom.coords, cosLat);
        var streetType := RoadType(row.roadClass);
        streets := streets + [Street("street-" + row.id, OrEmpty(row.name), streetType, points, None)];
      }
      i := i + 1;
    }
    assert rows[..i] == rows;
  }

  // ---------------------------------------------------------------- buildings

  /** One row of the building query (`class` is not used). */
  datatype BuildingRow = BuildingRow(
    id: string,
    name: Option<string>,
    height: Option<real>,
    numFloors: Option<int>,
    geom: Geometry,
    idHash: int)

  const MetresPerFloor: real := 3.5

  /** The height of a building: its own `height` when truthy, else
      3.5 m per floor when `num_floors` is truthy, else a value between 8
      and 32 m picked by the id hash. */
  function BuildingHeight(height: Option<real>, numFloors: Option<int>, idHash: int): (h: real)
    ensures height.Some? && height.value != 0.0 ==> h == height.value
    ensures (height.None? || height.value == 0.0) && numFloors.Some? && numFloors.value != 0 ==>
              h == numFloors.value as real * MetresPerFloor
    ensures (height.None? || height.value == 0.0) && (numFloors.None? || numFloors.value == 0) ==>
              8.0 <= h <= 32.0
  {
    if height.Some? && height.value != 0.0 then height.value
    else if numFloors.Some? && numFloors.value != 0 then numFloors.value as real * MetresPerFloor
    else 8.0 + (idHash % 25) as real
  }

  /** `color_palette` of `fetch_buildings`. */
  const Palette25: seq<string> := [
    "#8b7355", "#7a8b8b", "#6b6b7a", "#8b8378", "#7d8b8b",
    "#74b9ff", "#a29bfe", "#fd79a8", "#ffeaa7", "#81ecec",
    "#dfe6e9", "#b2bec3", "#636e72", "#fab1a0", "#e17055",
    "#00b894", "#00cec9", "#0984e3", "#6c5ce7", "#fdcb6e",
    "#e84393", "#55a3ff", "#ff7675", "#a0c4ff", "#bdb2ff"]

  /** `color_palette[hash(id_) % len(color_palette)]`: Python's `%` by a
      positive number is never negative, as Dafny's is not. */
  function ColourFor(idHash: int): (c: string)
    ensures c in Palette25
  {
    Palette25[idHash % |Palette25|]
  }

  /** The footprint of a ring: its open ring converted to local metres. */
  function RingFootprint(ring: seq<LonLat>, cosLat: real): (r: seq<Point>)
    ensures |r| == |OpenRing(ring)|
  {
    LocalAll(OpenRing(ring), cosLat)
  }

  /** The building of ring `k` of a row, or `None` when the ring has fewer
      than three distinct corners: the position is the mean of the corners
      and the size is the width and depth of their box. */
  function RingBuilding(row: BuildingRow, k: nat, ring: seq<LonLat>, cosLat: real): Option<Building>
  {
    var footprint := RingFootprint(ring, cosLat);
    if |footprint| < 3 then None
    else
      var cx := Mean(Xs(footprint));
      var cz := Mean(Zs(footprint));
      var box := BoundsOf(footprint);
      Some(Building(
        RingId("bldg-", row.id, k),
        Some(OrEmpty(row.name)),
        footprint,
        Vec3(cx, 0.0, cz),
        Vec3(BuildingDerivation.Width(box), BuildingHeight(row.height, row.numFloors, row.idHash), BuildingDerivation.Depth(box)),
        Some(ColourFor(row.idHash))))
  }

  /** The buildings of some rings of a row, numbered from 0. */
  function RingsBuildings(row: BuildingRow, rings: seq<seq<LonLat>>, cosLat: real): seq<Building>
  {
    IndexedFilterMap(rings, (k: nat, ring: seq<LonLat>) => RingBuilding(row, k, ring, cosLat))
  }

  function RowBuildings(row: BuildingRow, cosLat: real): seq<Building>
  {
    var rings := OuterRings(row.geom);
    if rings.Some? then RingsBuildings(row, rings.value, cosLat) else []
  }

  /** The result of `fetch_buildings`. */
  function Buildings(rows: seq<BuildingRow>, cosLat: real): seq<Building>
  {
    FlatMap(rows, row => RowBuildings(row, cosLat))
  }

  /** `b` is a building of `row`: at least three corners, position the mean
      corner (so inside the footprint's box) at ground level, size the box's
      width and depth with the row's height, name, palette colour, and an id
      made from the row's id. */
  ghost predicate FromBuildingRow(b: Building, row: BuildingRow)
  {
    && |b.footprint| >= 3
    && b.position.x == Mean(Xs(b.footprint))
    && b.position.z == Mean(Zs(b.footprint))
    && var box := BoundsOf(b.footprint);
    && box.minX <= b.position.x <= box.maxX
    && box.minZ <= b.position.z <= box.maxZ
    && b.position.y == 0.0
    && b.size.x == BuildingDerivation.Width(box) >= 0.0
    && b.size.z == BuildingDerivation.Depth(box) >= 0.0
    && b.size.y == BuildingHeight(row.height, row.numFloors, row.idHash)
    && b.name == Some(OrEmpty(row.name))
    && b.color == Some(ColourFor(row.idHash))
    && exists k: nat :: b.id == RingId("bldg-", row.id, k)
  }

  /** A ring yields a building exactly when it has at least four points
      (three corners and the closing point), and the building belongs to its
      row. */
  lemma RingBuildingSound(row: BuildingRow, k: nat, ring: seq<LonLat>, cosLat: real)
    ensures RingBuilding(row, k, ring, cosLat).Some? <==> |ring| >= 4
    ensures RingBuilding(row, k, ring, cosLat).Some? ==>
              var b := RingBuilding(row, k, ring, cosLat).value;
              FromBuildingRow(b, row) && b.id == RingId("bldg-", row.id, k) && b.footprint == RingFootprint(ring, cosLat)
  {
    var fp := RingFootprint(ring, cosLat);
    if |fp| >= 3 {
      var b := RingBuilding(row, k, ring, cosLat).value;
      MeanBetween(Xs(fp));
      MeanBetween(Zs(fp));
      assert fp[0] in fp;
      assert b.id == RingId("bldg-", row.id, k);
    }
  }

  /** Every building belongs to a polygon row of the query. */
  lemma BuildingsSound(rows: seq<BuildingRow>, cosLat: real)
    ensures forall b :: b in Buildings(rows, cosLat) ==>
              exists row :: row in rows && OuterRings(row.geom).Some? && FromBuildingRow(b, row)
  {
    forall b | b in Buildings(rows, cosLat)
      ensures exists row :: row in rows && OuterRings(row.geom).Some? && FromBuildingRow(b, row)
    {
      var row :| row in rows && b in RowBuildings(row, cosLat);
      var rings := OuterRings(row.geom).value;
      var k :| 0 <= k < |rings| && RingBuilding(row, k, rings[k], cosLat) == Some(b);
      RingBuildingSound(row, k, rings[k], cosLat);
    }
  }

  /** Every outer ring with at least four points yields its building. */
  lemma BuildingsComplete(rows: seq<BuildingRow>, cosLat: real)
    ensures forall row, k :: row in rows && OuterRings(row.geom).Some? && 0 <= k < |OuterRings(row.geom).value| ==>
              |OuterRings(row.geom).value[k]| >= 4 ==>
              RingBuilding(row, k, OuterRings(row.geom).value[k], cosLat).Some? &&
              RingBuilding(row, k, OuterRings(row.geom).value[k], cosLat).value in Buildings(rows, cosLat)
  {
    forall row, k | row in rows && OuterRings(row.geom).Some? && 0 <= k < |OuterRings(row.geom).value|
      && |OuterRings(row.geom).value[k]| >= 4
      ensures RingBuilding(row, k, OuterRings(row.geom).value[k], cosLat).Some?
      ensures RingBuilding(row, k, OuterRings(row.geom).value[k], cosLat).value in Buildings(rows, cosLat)
    {
      var rings := OuterRings(row.geom).value;
      RingBuildingSound(row, k, rings[k], cosLat);
      assert RingBuilding(row, k, rings[k], cosLat).value in RowBuildings(row, cosLat);
    }
  }

  /** A closed triangular ring: the centre, a corner 0.001 degree north of
      it, a corner 0.001 degree east of it, and the centre again. */
  const CornerRing: seq<LonLat> :=
    [Center, LonLat(Center.lon, Center.lat + 0.001), LonLat(Center.lon + 0.001, Center.lat), Center]

  /** Unlike the OpenStreetMap buildings, whose position is the centre of the
      footprint's box, an Overture building sits at the mean of its corners,
      so the box drawn around the position can miss a corner: for the
      triangle above the position is a third of the way to the east corner,
      and half the width from there falls short of that corner. */
  lemma MeanPositionCanMissCorner(row: BuildingRow, cosLat: real)
    requires 0.0 < cosLat
    ensures RingBuilding(row, 0, CornerRing, cosLat).Some?
    ensures var b := RingBuilding(row, 0, CornerRing, cosLat).value;
            |b.footprint| == 3 && b.position.x + b.size.x / 2.0 < b.footprint[2].x
  {
    var fp := RingFootprint(CornerRing, cosLat);
    var e := 0.001 * MetresPerDegree * cosLat;
    assert fp == [Point(0.0, 0.0), Point(0.0, 111.0), Point(e, 0.0)];
    assert Xs(fp) == [0.0, 0.0, e];
    assert Sum([0.0, 0.0, e]) == e by {
      assert [0.0, 0.0, e][1..] == [0.0, e];
      assert [0.0, e][1..] == [e];
      assert [e][1..] == [];
      assert Sum([e]) == e;
    }
    assert Max(Xs(fp)) == e;
    assert Min(Xs(fp)) == 0.0;
  }

  /** The body of the ring loop of `fetch_buildings`. */
  method ConvertRing(row: BuildingRow, k: nat, ring: seq<LonLat>, cosLat: real) returns (b: Option<Building>)
    ensures b == RingBuilding(row, k, ring, cosLat)
    ensures b.Some? ==> FromBuildingRow(b.value, row)
  {
    var footprint := RingFootprint(ring, cosLat);
    if |footprint| < 3 {
      return None;
    }
    var cx := Mean(Xs(footprint));
    var cz := Mean(Zs(footprint));
    var height := BuildingHeight(row.height, row.numFloors, row.idHash);
    var box := BoundsOf(footprint);
    var width, depth := BuildingDerivation.Width(box), BuildingDerivation.Depth(box);
    var colour := ColourFor(row.idHash);
    b := Some(Building(
      RingId("bldg-", row.id, k), Some(OrEmpty(row.name)), footprint,
      Vec3(cx, 0.0, cz), Vec3(width, height, depth), Some(colour)));
    RingBuildingSound(row, k, ring, cosLat);
  }

  /** The inner loop of `fetch_buildings`: the buildings of one row's rings. */
  method ConvertRow(row: BuildingRow, cosLat: real) returns (buildings: seq<Building>)
    ensures buildings == RowBuildings(row, cosLat)
  {
    buildings := [];
    var rings := OuterRings(row.geom);
    if rings.Some? {
      var j := 0;
      while j < |rings.value|
        invariant 0 <= j <= |rings.value|
        invariant buildings == RingsBuildings(row, rings.value[..j], cosLat)
      {
        assert rings.value[..j + 1][..j] == rings.value[..j];
        var b := ConvertRing(row, j, rings.value[j], cosLat);
        if b.Some? {
          buildings := buildings + [b.value];
        }
        j := j + 1;
      }
      assert rings.value[..j] == rings.value;
    }
  }

  /** The outer loop of `fetch_buildings`, over the query's rows. */
  method FetchBuildings(rows: seq<BuildingRow>, cosLat: real) returns (buildings: seq<Building>)
    ensures buildings == Buildings(rows, cosLat)
  {
    buildings := [];
    var i := 0;
    while i < |rows|
      invariant 0 <= i <= |rows|
      invariant buildings == Buildings(rows[..i], cosLat)
    {
      assert rows[..i + 1][..i] == rows[..i];
      var more := ConvertRow(rows[i], cosLat);
      buildings := buildings + more;
      i := i + 1;
    }
    assert rows[..i] == rows;
  }

  // ---------------------------------------------------------------- land use

  /** The `source_type` each of the three land-use queries attaches. */
  datatype SourceType = Land | Water | Infrastructure

  /** One row of a land-use query, before its source type is attached. */
  datatype QueryRow = QueryRow(id: string, name: Option<string>, luClass: Option<string>, geom: Geometry)

  datatype LanduseRow = LanduseRow(row: QueryRow, source: SourceType)

  function Tagged(rows: seq<QueryRow>, source: SourceType): (r: seq<LanduseRow>)
    ensures |r| == |rows|
  {
    seq(|rows|, k requires 0 <= k < |rows| => LanduseRow(rows[k], source))
  }

  /** `all_results`: the land rows, then the water and infrastructure rows
      of the queries that did not fail (`None`). */
  function AllResults(land: seq<QueryRow>, water: Option<seq<QueryRow>>, infra: Option<seq<QueryRow>>): (r: seq<LanduseRow>)
    ensures forall x :: x in r && x.source == Water ==> water.Some?
    ensures forall x :: x in r && x.source == Infrastructure ==> infra.Some?
    ensures |r| == |land| + (if water.Some? then |water.value| else 0) + (if infra.Some? then |infra.value| else 0)
  {
    Tagged(land, Land)
      + (if water.Some? then Tagged(water.value, Water) else [])
      + (if infra.Some? then Tagged(infra.value, Infrastructure) else [])
  }

  /** `type_map` of the land rows. */
  const LandTypeMap: map<string, string> := map[
    "park" := "park",
    "grass" := "grass",
    "forest" := "park",
    "garden" := "park",
    "meadow" := "grass",
    "wetland" := "water",
    "residential" := "residential",
    "commercial" := "commercial",
    "industrial" := "industrial"]

  /** The feature type of a row: water rows are water; infrastructure rows
      are railways exactly when their class says so and parking otherwise;
      land rows map known classes through the table, keep an unknown class
      and fall back to park when the class is missing or empty. */
  function FeatureType(source: SourceType, luClass: Option<string>): (t: string)
    ensures source == Water ==> t == "water"
    ensures source == Infrastructure ==> (t == "railway" <==> luClass == Some("railway"))
    ensures source == Infrastructure ==> (t == "parking" <==> luClass != Some("railway"))
    ensures source == Land && luClass.Some? && luClass.value in LandTypeMap ==>
              t in {"park", "grass", "water", "residential", "commercial", "industrial"}
    ensures source == Land && (luClass.None? || luClass.value == "") ==> t == "park"
    ensures source == Land && luClass.Some? && luClass.value !in LandTypeMap && luClass.value != "" ==> t == luClass.value
  {
    match source
    case Water => "water"
    case Infrastructure =>
      if luClass == Some("parking") || luClass == Some("railway") then luClass.value else "parking"
    case Land =>
      if luClass.Some? && luClass.value in LandTypeMap then LandTypeMap[luClass.value]
      else if luClass.Some? && luClass.value != "" then luClass.value
      else "park"
  }

  /** The feature of ring `k` of a row, or `None` with fewer than three
      corners; Overture features carry no colour. */
  function RingFeature(r: LanduseRow, k: nat, ring: seq<LonLat>, cosLat: real): Option<Feature>
  {
    var points := RingFootprint(ring, cosLat);
    if |points| < 3 then None
    else
      var t := FeatureType(r.source, r.row.luClass);
      Some(Feature(RingId(t + "-", r.row.id, k), t, OrEmpty(r.row.name), points, None))
  }

  function RingsFeatures(r: LanduseRow, rings: seq<seq<LonLat>>, cosLat: real): seq<Feature>
  {
    IndexedFilterMap(rings, (k: nat, ring: seq<LonLat>) => RingFeature(r, k, ring, cosLat))
  }

  function RowFeatures(r: LanduseRow, cosLat: real): seq<Feature>
  {
    var rings := OuterRings(r.row.geom);
    if rings.Some? then RingsFeatures(r, rings.value, cosLat) else []
  }

  /** The features of the land-use loop over `rows`. */
  function Features(rows: seq<LanduseRow>, cosLat: real): seq<Feature>
  {
    FlatMap(rows, r => RowFeatures(r, cosLat))
  }

  /** `f` is a feature of row `r`. */
  ghost predicate FromLanduseRow(f: Feature, r: LanduseRow)
  {
    && |f.points| >= 3
    && f.color.None?
    && f.kind == FeatureType(r.source, r.row.luClass)
    && f.name == OrEmpty(r.row.name)
    && exists k: nat :: f.id == RingId(f.kind + "-", r.row.id, k)
  }

  /** A ring yields a feature exactly when it has at least four points, and
      the feature belongs to its row. */
  lemma RingFeatureSound(r: LanduseRow, k: nat, ring: seq<LonLat>, cosLat: real)
    ensures RingFeature(r, k, ring, cosLat).Some? <==> |ring| >= 4
    ensures RingFeature(r, k, ring, cosLat).Some? ==>
              var f := RingFeature(r, k, ring, cosLat).value;
              FromLanduseRow(f, r) && f.id == RingId(f.kind + "-", r.row.id, k) && f.points == RingFootprint(ring, cosLat)
  {
    if |RingFootprint(ring, cosLat)| >= 3 {
      var f := RingFeature(r, k, ring, cosLat).value;
      assert f.id == RingId(f.kind + "-", r.row.id, k);
    }
  }

  /** Every feature has at least three points and comes from a polygon row
      whose source and class give its type. */
  lemma FeaturesSound(rows: seq<LanduseRow>, cosLat: real)
    ensures forall f :: f in Features(rows, cosLat) ==>
              exists r :: r in rows && OuterRings(r.row.geom).Some? && FromLanduseRow(f, r)
  {
    forall f | f in Features(rows, cosLat)
      ensures exists r :: r in rows && OuterRings(r.row.geom).Some? && FromLanduseRow(f, r)
    {
      var r :| r in rows && f in RowFeatures(r, cosLat);
      var rings := OuterRings(r.row.geom).value;
      var k :| 0 <= k < |rings| && RingFeature(r, k, rings[k], cosLat) == Some(f);
      RingFeatureSound(r, k, rings[k], cosLat);
    }
  }

  /** Every outer ring with at least four points yields its feature. */
  lemma FeaturesComplete(rows: seq<LanduseRow>, cosLat: real)
    ensures forall r, k :: r in rows && OuterRings(r.row.geom).Some? && 0 <= k < |OuterRings(r.row.geom).value| ==>
              |OuterRings(r.row.geom).value[k]| >= 4 ==>
              RingFeature(r, k, OuterRings(r.row.geom).value[k], cosLat).Some? &&
              RingFeature(r, k, OuterRings(r.row.geom).value[k], cosLat).value in Features(rows, cosLat)
  {
    forall r, k | r in rows && OuterRings(r.row.geom).Some? && 0 <= k < |OuterRings(r.row.geom).value|
      && |OuterRings(r.row.geom).value[k]| >= 4
      ensures RingFeature(r, k, OuterRings(r.row.geom).value[k], cosLat).Some?
      ensures RingFeature(r, k, OuterRings(r.row.geom).value[k], cosLat).value in Features(rows, cosLat)
    {
      var rings := OuterRings(r.row.geom).value;
      RingFeatureSound(r, k, rings[k], cosLat);
      assert RingFeature(r, k, rings[k], cosLat).value in RowFeatures(r, cosLat);
    }
  }

  /** The inner loop of `fetch_landuse`: the features of one row's rings. */
  method ConvertLanduseRow(r: LanduseRow, cosLat: real) returns (features: seq<Feature>)
    ensures features == RowFeatures(r, cosLat)
  {
    features := [];
    var rings := OuterRings(r.row.geom);
    if rings.Some? {
      var j := 0;
      while j < |rings.value|
        invariant 0 <= j <= |rings.value|
        invariant features == RingsFeatures(r, rings.value[..j], cosLat)
      {
        assert rings.value[..j + 1][..j] == rings.value[..j];
        var points := RingFootprint(rings.value[j], cosLat);
        if |points| >= 3 {
          var featureType := FeatureType(r.source, r.row.luClass);
          features := features + [Feature(RingId(featureType + "-", r.row.id, j), featureType, OrEmpty(r.row.name), points, None)];
        }
        j := j + 1;
      }
      assert rings.value[..j] == rings.value;
    }
  }

  /** The loop of `fetch_landuse` over `all_results`. */
  method ConvertLanduseRows(rows: seq<LanduseRow>, cosLat: real) returns (features: seq<Feature>)
    ensures features == Features(rows, cosLat)
  {
    features := [];
    var i := 0;
    while i < |rows|
      invariant 0 <= i <= |rows|
      invariant features == Features(rows[..i], cosLat)
    {
      assert rows[..i + 1][..i] == rows[..i];
      var more := ConvertLanduseRow(rows[i], cosLat);
      features := features + more;
      i := i + 1;
    }
    assert rows[..i] == rows;
  }

  /** `fetch_landuse` without its queries: the rows of the queries that
      answered, then the loop over them. */
  method FetchLanduse(land: seq<QueryRow>, water: Option<seq<QueryRow>>, infra: Option<seq<QueryRow>>, cosLat: real)
    returns (features: seq<Feature>)
    ensures features == Features(AllResults(land, water, infra), cosLat)
  {
    var rows := AllResults(land, water, infra);
    features := ConvertLanduseRows(rows, cosLat);
  }

  // ---------------------------------------------------------------- the script

  /** `main` without its I/O: the bounding box around the centre and the
      three fetches. */
  method FetchAll(
    cosLat: real,
    roads: seq<RoadRow>,
    buildingRows: seq<BuildingRow>,
    land: seq<QueryRow>,
    water: Option<seq<QueryRow>>,
    infra: Option<seq<QueryRow>>)
    returns (bbox: DegreeBox, streets: seq<Street>, buildings: seq<Building>, features: seq<Feature>)
    requires 0.0 < cosLat
    ensures bbox == CreateBBox(Center, RadiusKm, cosLat)
    ensures bbox.minLon < Center.lon < bbox.maxLon && bbox.minLat < Center.lat < bbox.maxLat
    ensures streets == Roads(roads, cosLat)
    ensures buildings == Buildings(buildingRows, cosLat)
    ensures features == Features(AllResults(land, water, infra), cosLat)
  {
    bbox := CreateBBox(Center, RadiusKm, cosLat);
    streets := FetchRoads(roads, cosLat);
    buildings := FetchBuildings(buildingRows, cosLat);
    features := FetchLanduse(land, water, infra, cosLat);
  }
}
