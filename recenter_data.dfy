/**
 * recenter_data.py: moves buildings and streets, made around the old
 * centre of extract_downtown.py, so that the Public Square fountain becomes
 * the origin.
 *
 * The files are parameters and results; the printed checks are not part of
 * this model.
 */
module RecenterData {
  import opened Seqs
  import opened Geo
  import opened Records
  import opened Transform
  import ExtractDowntown

  /** The OpenStreetMap fountain of Public Square. */
  const Fountain := LonLat(-89.984903, 38.522207)
  /** The centre the data were made around. */
  const OldCenter := LonLat(-89.9839, 38.5200)

  /** `offset_x`, `offset_z`: where the fountain lies in the old frame. */
  const OffsetX: real := (Fountain.lon - OldCenter.lon) * LonToMeters
  const OffsetZ: real := -(Fountain.lat - OldCenter.lat) * LatToMeters

  /** The old centre is the centre of extract_downtown.py, and the offset is
      the fountain's position in that frame: about 87 m west and 245 m north. */
  lemma OffsetIsFountain()
    ensures OldCenter == ExtractDowntown.Center
    ensures ToLocal(OldCenter, Fountain) == Point(OffsetX, OffsetZ)
    ensures OffsetX == -87.261 && OffsetZ == -244.977
  {
  }

  /** Recentering is re-projecting: a point converted around the old centre
      and shifted by minus the offset is the point converted around the
      fountain. In particular the fountain goes to the origin. */
  lemma {:induction false} RecenterIsReprojection(p: LonLat)
    ensures Shift(ToLocal(OldCenter, p), -OffsetX, -OffsetZ) == ToLocal(Fountain, p)
    ensures Shift(ToLocal(OldCenter, Fountain), -OffsetX, -OffsetZ) == Point(0.0, 0.0)
  {
    assert (p.lon - OldCenter.lon) * LonToMeters - OffsetX == (p.lon - Fountain.lon) * LonToMeters;
    assert -(p.lat - OldCenter.lat) * LatToMeters - OffsetZ == -(p.lat - Fountain.lat) * LatToMeters;
  }

  /** The script: positions (x and z) and footprints of every building, and
      the points of every street, move by minus the offset; nothing else
      changes. */
  method Recenter(buildings: seq<Building>, streets: seq<Street>) returns (bs: seq<Building>, ss: seq<Street>)
    ensures bs == ShiftedBuildings(buildings, -OffsetX, -OffsetZ)
    ensures ss == ShiftedStreets(streets, -OffsetX, -OffsetZ)
  {
    bs := ShiftBuildings(buildings, -OffsetX, -OffsetZ);
    ss := ShiftStreets(streets, -OffsetX, -OffsetZ);
  }
}
