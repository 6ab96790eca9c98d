/**
 * fix_alignment.py: moves every street point by the offset between the
 * centre of the building footprints' box and the centre of the street
 * points' box, then keeps the streets with a point near the buildings.
 *
 * The files are parameters and results; the printed boxes are not part of
 * this model, except that printing the box of the kept streets stops the
 * script (before it writes) when no street is kept.
 */
module FixAlignment {
  import opened Seqs
  import opened Geo
  import opened Records
  import opened Transform

  const Margin: real := 50.0

  /** `(bldg_center - street_center)` on each axis, or `None` when the
      buildings or the streets have no point (Python's `min` of an empty
      list raises). */
  function Offset(buildings: seq<Building>, streets: seq<Street>): (r: Option<(real, real)>)
    ensures r.None? <==> FootprintPoints(buildings) == [] || AllStreetPoints(streets) == []
  {
    var bpts, spts := FootprintPoints(buildings), AllStreetPoints(streets);
    if bpts == [] || spts == [] then None
    else
      var bc, sc := Centre(BoundsOf(bpts)), Centre(BoundsOf(spts));
      Some((bc.x - sc.x, bc.z - sc.z))
  }

  /** After the shift the centre of the streets' box is the centre of the
      buildings' box, which is what the script sets out to do. */
  lemma CentresCoincide(buildings: seq<Building>, streets: seq<Street>)
    requires Offset(buildings, streets).Some?
    ensures var off := Offset(buildings, streets).value;
            && AllStreetPoints(ShiftedStreets(streets, off.0, off.1)) != []
            && Centre(BoundsOf(AllStreetPoints(ShiftedStreets(streets, off.0, off.1))))
               == Centre(BoundsOf(FootprintPoints(buildings)))
  {
    var spts := AllStreetPoints(streets);
    var off := Offset(buildings, streets).value;
    StreetPointsOfShift(streets, off.0, off.1);
    CentreOfTranslate(spts, off.0, off.1);
  }

  /** The script: `None` when it stops before writing, else the streets it
      writes: the shifted streets with a point in the footprint box grown by
      50 m, unclipped and in order. */
  method Fix(buildings: seq<Building>, streets: seq<Street>) returns (r: Option<seq<Street>>)
    ensures Offset(buildings, streets).None? ==> r.None?
    ensures Offset(buildings, streets).Some? ==>
              var off := Offset(buildings, streets).value;
              var kept := Touching(ShiftedStreets(streets, off.0, off.1), Expand(BoundsOf(FootprintPoints(buildings)), Margin));
              && (r.None? <==> kept == [])
              && (r.Some? ==> r.value == kept && |r.value| <= |streets|)
  {
    var offset := Offset(buildings, streets);
    if offset.None? {
      return None;
    }
    var shifted := ShiftStreets(streets, offset.value.0, offset.value.1);
    var box := Expand(BoundsOf(FootprintPoints(buildings)), Margin);
    var filtered := KeepTouching(shifted, box);
    TouchingSpec(shifted, box);
    if filtered == [] {
      return None;
    }
    r := Some(filtered);
  }
}
