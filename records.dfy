/**
 * The JSON records the scripts read and write (buildings.json, streets.json,
 * landuse.json), as values. Keys a script does not write are `None`.
 */
module Records {
  import opened Seqs
  import opened Geo

  /** `{'id', 'name'?, 'footprint', 'position', 'size', 'color'?}`. */
  datatype Building = Building(
    id: string,
    name: Option<string>,
    footprint: seq<Point>,
    position: Vec3,
    size: Vec3,
    color: Option<string>)

  /** The `width` and `color` keys an OSM street record carries. */
  datatype Style = Style(width: nat, color: string)

  /** `{'id', 'name', 'type', 'points', 'width'?, 'color'?}`. */
  datatype Street = Street(
    id: string,
    name: string,
    kind: string,
    points: seq<Point>,
    style: Option<Style>)

  /** `{'id', 'type', 'name', 'points', 'color'?}` of landuse.json. */
  datatype Feature = Feature(
    id: string,
    kind: string,
    name: string,
    points: seq<Point>,
    color: Option<string>)

  /** The footprints of all buildings, in order. */
  function Footprints(bs: seq<Building>): seq<seq<Point>>
  {
    seq(|bs|, i requires 0 <= i < |bs| => bs[i].footprint)
  }

  /** The point lists of all streets, in order. */
  function StreetPoints(ss: seq<Street>): seq<seq<Point>>
  {
    seq(|ss|, i requires 0 <= i < |ss| => ss[i].points)
  }
}
