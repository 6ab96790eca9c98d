/**
 * Turning a local footprint into a building record, as extract_downtown.py
 * and rebuild_all.py both do: bounding box, rejection of tiny footprints,
 * the height estimate from the footprint area, then the sort by distance
 * from the origin and the renumbering and colouring of the sorted list.
 */
module BuildingDerivation {
  import opened Geo
  import opened Seqs
  import opened Records

  /** Footprints narrower or shallower than this many metres are skipped. */
  const MinSide: real := 3.0

  /** The 14-colour palette cycled over the sorted buildings. */
  const Palette: seq<string> := [
    "#74b9ff", "#a29bfe", "#fd79a8", "#ffeaa7", "#81ecec",
    "#fab1a0", "#00b894", "#e17055", "#6c5ce7", "#fdcb6e",
    "#55efc4", "#b2bec3", "#dfe6e9", "#636e72"]

  function MinReal(a: real, b: real): real
  {
    if a <= b then a else b
  }

  /** The height estimate in four area bands. */
  function HeightFromArea(area: real): (h: real)
    ensures 0.0 <= area ==> 5.0 <= h <= 43.0
    ensures area >= 2000.0 ==> h == 43.0
    ensures area < 50.0 ==> h < 10.0
  {
    if area < 50.0 then 5.0 + area / 10.0
    else if area < 200.0 then 8.0 + area / 30.0
    else if area < 500.0 then 12.0 + area / 50.0
    else 18.0 + MinReal(area / 80.0, 25.0)
  }

  /** The bands do not join up at 50 square metres: the estimate drops there. */
  lemma HeightDropsAtFifty()
    ensures HeightFromArea(49.5) > HeightFromArea(50.0)
  {
  }

  /** What every derived building satisfies: a vertical box centred on the
      footprint's bounding box that holds every footprint point. */
  ghost predicate ValidBuilding(b: Building)
  {
    && b.footprint != []
    && b.position.y == 0.0
    && b.size.x >= MinSide && b.size.z >= MinSide
    && 5.0 <= b.size.y <= 43.0
    && forall p :: p in b.footprint ==>
         && b.position.x - b.size.x / 2.0 <= p.x <= b.position.x + b.size.x / 2.0
         && b.position.z - b.size.z / 2.0 <= p.z <= b.position.z + b.size.z / 2.0
  }

  /** `max(xs) - min(xs)` and `max(zs) - min(zs)` of a footprint's box. */
  function Width(b: Box): real
  {
    b.maxX - b.minX
  }

  function Depth(b: Box): real
  {
    b.maxZ - b.minZ
  }

  /** The record for one footprint, or `None` when the footprint is tiny:
      the footprint's box gives the position and the size. */
  function DeriveBuilding(id: string, footprint: seq<Point>): (r: Option<Building>)
    requires footprint != []
    ensures r == FromBounds(id, footprint, BoundsOf(footprint))
    ensures r.Some? ==> r.value.id == id && r.value.footprint == footprint
    ensures r.Some? ==> ValidBuilding(r.value)
  {
    var r := FromBounds(id, footprint, BoundsOf(footprint));
    if r.Some? then
      DerivedIsValid(id, footprint, BoundsOf(footprint));
      r
    else r
  }

  /** The per-shape step of the source with the bounds already computed. */
  function FromBounds(id: string, footprint: seq<Point>, b: Box): (r: Option<Building>)
    ensures r.None? <==> Width(b) < MinSide || Depth(b) < MinSide
    ensures r.Some? ==>
            && r.value.id == id && r.value.footprint == footprint
            && r.value.name.None? && r.value.color.None?
            && r.value.position == Vec3(Centre(b).x, 0.0, Centre(b).z)
            && r.value.size == Vec3(Width(b), HeightFromArea(Width(b) * Depth(b)), Depth(b))
  {
    if Width(b) < MinSide || Depth(b) < MinSide then None
    else
      Some(Building(id, None, footprint,
                    Vec3(Round1(Centre(b).x), 0.0, Round1(Centre(b).z)),
                    Vec3(Round1(Width(b)), Round1(HeightFromArea(Width(b) * Depth(b))), Round1(Depth(b))),
                    None))
  }

  /** A building sized and placed by the bounding box of its footprint, with
      sides of at least 3 metres and the banded height, is valid. */
  lemma DerivedIsValid(id: string, footprint: seq<Point>, b: Box)
    requires footprint != [] && b == BoundsOf(footprint)
    requires FromBounds(id, footprint, b).Some?
    ensures ValidBuilding(FromBounds(id, footprint, b).value)
  {
    var r := FromBounds(id, footprint, b).value;
    MulNonNeg(Width(b), Depth(b));
    assert 5.0 <= r.size.y <= 43.0;
    forall p | p in footprint
      ensures r.position.x - r.size.x / 2.0 <= p.x <= r.position.x + r.size.x / 2.0
      ensures r.position.z - r.size.z / 2.0 <= p.z <= r.position.z + r.size.z / 2.0
    {
      assert InBox(p, b);
    }
  }

  lemma MulNonNeg(a: real, b: real)
    requires a >= 0.0 && b >= 0.0
    ensures a * b >= 0.0
  {
  }

  // ---------------------------------------------------------------- sort by distance

  /** The sort key `position[0]**2 + position[2]**2`. */
  function Dist2(b: Building): real
  {
    b.position.x * b.position.x + b.position.z * b.position.z
  }

  predicate SortedByDistance(bs: seq<Building>)
  {
    forall i, j :: 0 <= i < j < |bs| ==> Dist2(bs[i]) <= Dist2(bs[j])
  }

  /** Inserts `b` before the first element whose key is not smaller. */
  function Insert(b: Building, bs: seq<Building>): (r: seq<Building>)
    requires SortedByDistance(bs)
    ensures SortedByDistance(r)
    ensures multiset(r) == multiset(bs) + multiset{b}
    ensures |r| == |bs| + 1
  {
    if bs == [] || Dist2(b) <= Dist2(bs[0]) then
      SortedCons(b, bs);
      [b] + bs
    else
      var rest := Insert(b, bs[1..]);
      assert bs == [bs[0]] + bs[1..];
      forall x | x in rest ensures Dist2(bs[0]) <= Dist2(x) {
        assert x in multiset(rest);
      }
      SortedCons(bs[0], rest);
      [bs[0]] + rest
  }

  lemma SortedCons(h: Building, t: seq<Building>)
    requires SortedByDistance(t)
    requires forall x :: x in t ==> Dist2(h) <= Dist2(x)
    ensures SortedByDistance([h] + t)
  {
    forall i, j | 0 <= i < j < |t| + 1 ensures Dist2(([h] + t)[i]) <= Dist2(([h] + t)[j]) {
      if i == 0 {
        assert ([h] + t)[j] in t;
      }
    }
  }

  /** `buildings.sort(key=...)`: the same buildings, ordered by key. */
  function SortByDistance(bs: seq<Building>): (r: seq<Building>)
    ensures SortedByDistance(r)
    ensures multiset(r) == multiset(bs)
    ensures |r| == |bs|
  {
    if bs == [] then []
    else
      assert bs == [bs[0]] + bs[1..];
      Insert(bs[0], SortByDistance(bs[1..]))
  }

  // ---------------------------------------------------------------- renumbering

  /** `f'bldg-{n}'`. */
  function BuildingId(n: nat): string
  {
    "bldg-" + NatToString(n)
  }

  /** Building `i` (from 0) of the list renamed `bldg-{i+1}` and given palette
      colour `i mod 14`; nothing else changes. */
  function Renumbered(bs: seq<Building>): (r: seq<Building>)
  {
    seq(|bs|, i requires 0 <= i < |bs| =>
      bs[i].(id := BuildingId(i + 1), color := Some(Palette[i % |Palette|])))
  }

  /** After renumbering every id is distinct and colours repeat every 14
      buildings. */
  lemma RenumberedIdsDistinct(bs: seq<Building>)
    ensures |Renumbered(bs)| == |bs|
    ensures forall i, j :: 0 <= i < j < |bs| ==> Renumbered(bs)[i].id != Renumbered(bs)[j].id
    ensures forall i :: 0 <= i && i + |Palette| < |bs| ==> Renumbered(bs)[i].color == Renumbered(bs)[i + |Palette|].color
  {
    var r := Renumbered(bs);
    forall i, j | 0 <= i < j < |bs| ensures r[i].id != r[j].id {
      if r[i].id == r[j].id {
        PrefixedNatInjective("bldg-", i + 1, j + 1);
      }
    }
    forall i | 0 <= i && i + |Palette| < |bs| ensures r[i].color == r[i + |Palette|].color {
      assert (i + |Palette|) % |Palette| == i % |Palette|;
    }
  }

  /** Renumbering leaves footprints, positions, sizes and the order alone, so
      it keeps a sorted list sorted and valid buildings valid. */
  lemma RenumberedKeepsGeometry(bs: seq<Building>)
    ensures |Renumbered(bs)| == |bs|
    ensures forall i :: 0 <= i < |bs| ==>
              && Renumbered(bs)[i].footprint == bs[i].footprint
              && Renumbered(bs)[i].position == bs[i].position
              && Renumbered(bs)[i].size == bs[i].size
    ensures SortedByDistance(bs) ==> SortedByDistance(Renumbered(bs))
    ensures (forall b :: b in bs ==> ValidBuilding(b)) ==> forall b :: b in Renumbered(bs) ==> ValidBuilding(b)
  {
    var r := Renumbered(bs);
    assert forall i :: 0 <= i < |bs| ==> Dist2(r[i]) == Dist2(bs[i]);
    if forall b :: b in bs ==> ValidBuilding(b) {
      forall b | b in r ensures ValidBuilding(b) {
        var i :| 0 <= i < |r| && r[i] == b;
        assert bs[i] in bs;
      }
    }
  }

  /** The loop `for i, b in enumerate(buildings): b['color'] = ...; b['id'] = ...`,
      updating the list element by element. */
  method RenumberAndColour(bs: seq<Building>) returns (r: seq<Building>)
    ensures r == Renumbered(bs)
  {
    r := bs;
    var i := 0;
    while i < |r|
      invariant 0 <= i <= |r| == |bs|
      invariant forall k :: 0 <= k < i ==> r[k] == Renumbered(bs)[k]
      invariant forall k :: i <= k < |r| ==> r[k] == bs[k]
    {
      r := r[i := r[i].(color := Some(Palette[i % |Palette|]))];
      r := r[i := r[i].(id := BuildingId(i + 1))];
      i := i + 1;
    }
  }

  /** Sorting and renumbering a list of valid buildings yields valid, sorted
      buildings with distinct ids `bldg-1 .. bldg-N` and palette colours. */
  lemma {:induction false} FinishedProperties(bs: seq<Building>)
    requires forall b :: b in bs ==> ValidBuilding(b)
    ensures var r := Renumbered(SortByDistance(bs));
            && |r| == |bs|
            && SortedByDistance(r)
            && (forall i :: 0 <= i < |r| ==> r[i].id == BuildingId(i + 1) && r[i].color == Some(Palette[i % 14]))
            && (forall i, j :: 0 <= i < j < |r| ==> r[i].id != r[j].id)
            && (forall b :: b in r ==> ValidBuilding(b))
  {
    var s := SortByDistance(bs);
    forall b | b in s ensures ValidBuilding(b) {
      assert b in multiset(s);
    }
    RenumberedIdsDistinct(s);
    RenumberedKeepsGeometry(s);
  }
}
