/**
 * recenter_correct.py: undoes what it takes to be a wrong recentering
 * (by the rounded offset -87.3, -245) and applies the shift from the old
 * centre to the fountain, as one translation by the sum.
 *
 * The files are parameters and results; the printed checks are not part of
 * this model.
 */
module RecenterCorrect {
  import opened Seqs
  import opened Geo
  import opened Records
  import opened Transform
  import RecenterData

  /** `shift_x`, `shift_z`. */
  const ShiftX: real := (RecenterData.OldCenter.lon - RecenterData.Fountain.lon) * LonToMeters
  const ShiftZ: real := -(RecenterData.OldCenter.lat - RecenterData.Fountain.lat) * LatToMeters
  /** `undo_x`, `undo_z`. */
  const UndoX: real := -87.3
  const UndoZ: real := -245.0
  /** `total_shift_x`, `total_shift_z`. */
  const TotalX: real := UndoX + ShiftX
  const TotalZ: real := UndoZ + ShiftZ

  /** The "correct" shift is the very shift recenter_data.py applied, and
      the undo is that shift rounded to a decimetre and negated; so the
      total is a few centimetres. */
  lemma ShiftsCompared()
    ensures ShiftX == -RecenterData.OffsetX && ShiftZ == -RecenterData.OffsetZ
    ensures -0.05 < UndoX - RecenterData.OffsetX < 0.05 && -0.05 < UndoZ - RecenterData.OffsetZ < 0.05
    ensures TotalX == -0.039 && TotalZ == -0.023
  {
  }

  /** Undoing and then shifting is one translation by the total. */
  lemma TotalIsComposition(buildings: seq<Building>, streets: seq<Street>)
    ensures ShiftedBuildings(ShiftedBuildings(buildings, UndoX, UndoZ), ShiftX, ShiftZ) == ShiftedBuildings(buildings, TotalX, TotalZ)
    ensures ShiftedStreets(ShiftedStreets(streets, UndoX, UndoZ), ShiftX, ShiftZ) == ShiftedStreets(streets, TotalX, TotalZ)
  {
    ShiftedBuildingsCompose(buildings, UndoX, UndoZ, ShiftX, ShiftZ);
    ShiftedStreetsCompose(streets, UndoX, UndoZ, ShiftX, ShiftZ);
  }

  /** After recenter_data.py and then this script, a point converted around
      the old centre ends up at its position around the fountain moved by
      the total: the fountain itself lands at (-0.039, -0.023), not at the
      origin. */
  lemma {:induction false} AfterBothScripts(p: LonLat)
    ensures Shift(Shift(ToLocal(RecenterData.OldCenter, p), -RecenterData.OffsetX, -RecenterData.OffsetZ), TotalX, TotalZ)
         == Shift(ToLocal(RecenterData.Fountain, p), TotalX, TotalZ)
    ensures Shift(Shift(ToLocal(RecenterData.OldCenter, RecenterData.Fountain), -RecenterData.OffsetX, -RecenterData.OffsetZ), TotalX, TotalZ)
         == Point(-0.039, -0.023)
  {
    RecenterData.RecenterIsReprojection(p);
    RecenterData.RecenterIsReprojection(RecenterData.Fountain);
  }

  /** The script: positions (x and z) and footprints of every building, and
      the points of every street, move by the total; nothing else changes. */
  method Correct(buildings: seq<Building>, streets: seq<Street>) returns (bs: seq<Building>, ss: seq<Street>)
    ensures bs == ShiftedBuildings(buildings, TotalX, TotalZ)
    ensures ss == ShiftedStreets(streets, TotalX, TotalZ)
  {
    bs := ShiftBuildings(buildings, TotalX, TotalZ);
    ss := ShiftStreets(streets, TotalX, TotalZ);
  }
}
