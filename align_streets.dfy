/**
 * align_streets.py: moves every street 27 m east (Illinois Street onto
 * x = 0), then keeps the streets with a point within 100 m of the box of
 * the building footprints.
 *
 * The files are parameters and results; the printed check of Illinois
 * Street is not part of this model.
 */
module AlignStreets {
  import opened Seqs
  import opened Geo
  import opened Records
  import opened Transform

  const OffsetX: real := 27.0
  const Margin: real := 100.0

  /** `t` is street `s` with every point moved 27 m in x and not in z, and
      nothing else changed. */
  predicate MovedEast(t: Street, s: Street)
  {
    && t.id == s.id && t.name == s.name && t.kind == s.kind && t.style == s.style
    && |t.points| == |s.points|
    && forall j :: 0 <= j < |t.points| ==> t.points[j] == Point(s.points[j].x + OffsetX, s.points[j].z)
  }

  /** The script: `None` when there is no footprint point (it stops before
      writing), else the shifted streets that touch the grown box. Each kept
      street is an input street moved 27 m in x and not at all in z. */
  method Align(streets: seq<Street>, buildings: seq<Building>) returns (r: Option<seq<Street>>)
    ensures r.None? <==> FootprintBox(buildings).None?
    ensures r.Some? ==> r.value == Touching(ShiftedStreets(streets, OffsetX, 0.0), Expand(FootprintBox(buildings).value, Margin))
    ensures r.Some? ==> |r.value| <= |streets|
    ensures r.Some? ==> forall t :: t in r.value ==> exists s :: s in streets && MovedEast(t, s)
  {
    var shifted := ShiftStreets(streets, OffsetX, 0.0);
    var box := FootprintBox(buildings);
    if box.None? {
      return None;
    }
    var area := Expand(box.value, Margin);
    var filtered := KeepTouching(shifted, area);
    TouchingSpec(shifted, area);
    ShiftedStreetsKeep(streets, OffsetX, 0.0);
    forall t | t in filtered
      ensures exists s :: s in streets && MovedEast(t, s)
    {
      var k :| 0 <= k < |shifted| && shifted[k] == t;
      assert MovedEast(t, streets[k]);
    }
    r := Some(filtered);
  }
}
