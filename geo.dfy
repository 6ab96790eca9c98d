/**
 * Planar geometry shared by the map data scripts: local metre coordinates
 * (x east, z south), WGS84 positions, axis-aligned boxes, the Python
 * built-ins `min`, `max` and `sum` over coordinate lists, rigid translation
 * of point lists and the equirectangular conversion to local metres.
 */
module Geo {
  import opened Seqs

  /** A local point `[x, z]` in metres. */
  datatype Point = Point(x: real, z: real)

  /** A WGS84 position, longitude first as in the source's tuples. */
  datatype LonLat = LonLat(lon: real, lat: real)

  /** A `[x, y, z]` triple (building position or size). */
  datatype Vec3 = Vec3(x: real, y: real, z: real)

  /** An axis-aligned box `[minX, maxX] x [minZ, maxZ]`. */
  datatype Box = Box(minX: real, maxX: real, minZ: real, maxZ: real)

  /** Python's `round(v, 1)`. Decimal rounding is not modelled: every place
      the scripts round goes through this function, which keeps the value. */
  function Round1(v: real): real
  {
    v
  }

  // ---------------------------------------------------------------- min, max, sum

  /** Python's `min(xs)`; the source raises on an empty list. */
  function Min(xs: seq<real>): (m: real)
    requires xs != []
    ensures m in xs
    ensures forall k :: 0 <= k < |xs| ==> m <= xs[k]
  {
    if |xs| == 1 then xs[0]
    else
      var rest := Min(xs[1..]);
      if xs[0] <= rest then xs[0] else rest
  }

  /** Python's `max(xs)`; the source raises on an empty list. */
  function Max(xs: seq<real>): (m: real)
    requires xs != []
    ensures m in xs
    ensures forall k :: 0 <= k < |xs| ==> xs[k] <= m
  {
    if |xs| == 1 then xs[0]
    else
      var rest := Max(xs[1..]);
      if xs[0] >= rest then xs[0] else rest
  }

  /** Python's `sum(xs)`. */
  function Sum(xs: seq<real>): real
  {
    if xs == [] then 0.0 else xs[0] + Sum(xs[1..])
  }

  /** `sum(xs) / len(xs)`. */
  function Mean(xs: seq<real>): real
    requires xs != []
  {
    Sum(xs) / (|xs| as real)
  }

  /** A sum of `n` values that all lie in `[lo, hi]` lies in `[n*lo, n*hi]`. */
  lemma {:induction false} SumBetween(xs: seq<real>, lo: real, hi: real)
    requires forall k :: 0 <= k < |xs| ==> lo <= xs[k] <= hi
    ensures (|xs| as real) * lo <= Sum(xs) <= (|xs| as real) * hi
  {
    if xs != [] {
      SumBetween(xs[1..], lo, hi);
      assert (|xs| as real) * lo == lo + ((|xs| - 1) as real) * lo;
      assert (|xs| as real) * hi == hi + ((|xs| - 1) as real) * hi;
    }
  }

  /** The mean of a non-empty list lies between its minimum and its maximum. */
  lemma MeanBetween(xs: seq<real>)
    requires xs != []
    ensures Min(xs) <= Mean(xs) <= Max(xs)
  {
    var n, lo, hi, s := |xs| as real, Min(xs), Max(xs), Sum(xs);
    assert lo <= s / n <= hi by {
      SumBetween(xs, lo, hi);
      DivBetween(s, n, lo, hi);
    }
    assert Mean(xs) == s / n;
  }

  lemma DivBetween(s: real, n: real, lo: real, hi: real)
    requires n > 0.0 && n * lo <= s <= n * hi
    ensures lo <= s / n <= hi
  {
  }

  /** Adding `d` to every element. */
  function AddAll(xs: seq<real>, d: real): (r: seq<real>)
  {
    seq(|xs|, k requires 0 <= k < |xs| => xs[k] + d)
  }

  lemma {:induction false} MinAddAll(xs: seq<real>, d: real)
    requires xs != []
    ensures Min(AddAll(xs, d)) == Min(xs) + d
    ensures Max(AddAll(xs, d)) == Max(xs) + d
  {
    if |xs| > 1 {
      assert AddAll(xs, d)[1..] == AddAll(xs[1..], d);
      MinAddAll(xs[1..], d);
    }
  }

  // ---------------------------------------------------------------- boxes

  /** `[p[0] for p in pts]`. */
  function Xs(pts: seq<Point>): seq<real>
  {
    seq(|pts|, k requires 0 <= k < |pts| => pts[k].x)
  }

  /** `[p[1] for p in pts]`. */
  function Zs(pts: seq<Point>): seq<real>
  {
    seq(|pts|, k requires 0 <= k < |pts| => pts[k].z)
  }

  predicate InBox(p: Point, b: Box)
  {
    b.minX <= p.x <= b.maxX && b.minZ <= p.z <= b.maxZ
  }

  /** The box `min(xs)..max(xs)`, `min(zs)..max(zs)` of a non-empty point list:
      the smallest box holding every point. */
  function BoundsOf(pts: seq<Point>): (b: Box)
    requires pts != []
    ensures forall p :: p in pts ==> InBox(p, b)
    ensures exists p :: p in pts && p.x == b.minX
    ensures exists p :: p in pts && p.x == b.maxX
    ensures exists p :: p in pts && p.z == b.minZ
    ensures exists p :: p in pts && p.z == b.maxZ
  {
    var xs, zs := Xs(pts), Zs(pts);
    var b := Box(Min(xs), Max(xs), Min(zs), Max(zs));
    assert forall k :: 0 <= k < |pts| ==> pts[k].x == xs[k] && pts[k].z == zs[k];
    b
  }

  /** The box grown by `margin` on every side. */
  function Expand(b: Box, margin: real): Box
  {
    Box(b.minX - margin, b.maxX + margin, b.minZ - margin, b.maxZ + margin)
  }

  /** The midpoint `((min + max) / 2, (min + max) / 2)` of a box. */
  function Centre(b: Box): Point
  {
    Point((b.minX + b.maxX) / 2.0, (b.minZ + b.maxZ) / 2.0)
  }

  /** All points of all lists, in order: `[pt for l in lists for pt in l]`. */
  function Flatten(lists: seq<seq<Point>>): seq<Point>
  {
    if lists == [] then [] else lists[0] + Flatten(lists[1..])
  }

  /** The flattened list holds exactly the points of the lists, and is empty
      exactly when every list is. */
  lemma {:induction false} FlattenSpec(lists: seq<seq<Point>>)
    ensures forall i, p :: 0 <= i < |lists| && p in lists[i] ==> p in Flatten(lists)
    ensures forall p :: p in Flatten(lists) ==> exists i :: 0 <= i < |lists| && p in lists[i]
    ensures Flatten(lists) == [] <==> forall i :: 0 <= i < |lists| ==> lists[i] == []
  {
    if lists != [] {
      FlattenSpec(lists[1..]);
      assert forall i :: 1 <= i < |lists| ==> lists[i] == lists[1..][i - 1];
    }
  }

  // ---------------------------------------------------------------- translation

  /** `[round(pt[0] + dx, 1), round(pt[1] + dz, 1)]`. */
  function Shift(p: Point, dx: real, dz: real): Point
  {
    Point(Round1(p.x + dx), Round1(p.z + dz))
  }

  /** Every point of the list shifted by `(dx, dz)`, in the same order. */
  function Translate(pts: seq<Point>, dx: real, dz: real): (r: seq<Point>)
  {
    seq(|pts|, k requires 0 <= k < |pts| => Shift(pts[k], dx, dz))
  }

  /** Shifting twice is shifting once by the sum of the offsets. */
  lemma TranslateCompose(pts: seq<Point>, dx1: real, dz1: real, dx2: real, dz2: real)
    ensures Translate(Translate(pts, dx1, dz1), dx2, dz2) == Translate(pts, dx1 + dx2, dz1 + dz2)
  {
  }

  /** Shifting back by the opposite offset restores the list. */
  lemma TranslateInverse(pts: seq<Point>, dx: real, dz: real)
    ensures Translate(Translate(pts, dx, dz), -dx, -dz) == pts
  {
    TranslateCompose(pts, dx, dz, -dx, -dz);
    assert Translate(pts, 0.0, 0.0) == pts;
  }

  /** The bounding box of a translated list is the translated bounding box. */
  lemma BoundsOfTranslate(pts: seq<Point>, dx: real, dz: real)
    requires pts != []
    ensures Translate(pts, dx, dz) != []
    ensures BoundsOf(Translate(pts, dx, dz))
         == Box(BoundsOf(pts).minX + dx, BoundsOf(pts).maxX + dx,
                BoundsOf(pts).minZ + dz, BoundsOf(pts).maxZ + dz)
  {
    var t := Translate(pts, dx, dz);
    XsOfTranslate(pts, dx, dz);
    MinAddAll(Xs(pts), dx);
    MinAddAll(Zs(pts), dz);
  }

  lemma XsOfTranslate(pts: seq<Point>, dx: real, dz: real)
    ensures Xs(Translate(pts, dx, dz)) == AddAll(Xs(pts), dx)
    ensures Zs(Translate(pts, dx, dz)) == AddAll(Zs(pts), dz)
  {
  }

  /** The centre of a translated list's box is the old centre plus the offset. */
  lemma CentreOfTranslate(pts: seq<Point>, dx: real, dz: real)
    requires pts != []
    ensures Translate(pts, dx, dz) != []
    ensures Centre(BoundsOf(Translate(pts, dx, dz)))
         == Point(Centre(BoundsOf(pts)).x + dx, Centre(BoundsOf(pts)).z + dz)
  {
    BoundsOfTranslate(pts, dx, dz);
  }

  // ---------------------------------------------------------------- local frame

  /** Metres per degree of latitude and of longitude near 38.5 degrees north. */
  const LatToMeters: real := 111000.0
  const LonToMeters: real := 87000.0

  /** `x = (lon - c_lon) * 87000`, `z = -(lat - c_lat) * 111000`: metres east
      and south of `centre` (the renderer's +Z points south). */
  function ToLocal(centre: LonLat, p: LonLat): (r: Point)
    ensures p == centre ==> r == Point(0.0, 0.0)
    ensures r.x > 0.0 <==> p.lon > centre.lon
    ensures r.z > 0.0 <==> p.lat < centre.lat
  {
    Point(Round1((p.lon - centre.lon) * LonToMeters), Round1(-(p.lat - centre.lat) * LatToMeters))
  }

  /** The inverse of `ToLocal`, from local metres back to degrees. */
  function FromLocal(centre: LonLat, q: Point): LonLat
  {
    LonLat(centre.lon + q.x / LonToMeters, centre.lat - q.z / LatToMeters)
  }

  /** The conversion loses nothing (ignoring rounding): it is invertible. */
  lemma ToLocalRoundTrip(centre: LonLat, p: LonLat)
    ensures FromLocal(centre, ToLocal(centre, p)) == p
    ensures ToLocal(centre, FromLocal(centre, ToLocal(centre, p))) == ToLocal(centre, p)
  {
  }

  /** Every position of a shape converted around `centre`, in order. */
  function ToLocalAll(centre: LonLat, shape: seq<LonLat>): (r: seq<Point>)
    ensures |r| == |shape|
  {
    seq(|shape|, k requires 0 <= k < |shape| => ToLocal(centre, shape[k]))
  }

  /** The loop `for p in shape: local_points.append(to_local(p))`. */
  method ConvertPoints(centre: LonLat, shape: seq<LonLat>) returns (points: seq<Point>)
    ensures points == ToLocalAll(centre, shape)
  {
    points := [];
    var i := 0;
    while i < |shape|
      invariant 0 <= i <= |shape|
      invariant points == ToLocalAll(centre, shape[..i])
    {
      points := points + [ToLocal(centre, shape[i])];
      i := i + 1;
    }
    assert shape[..i] == shape;
  }
}
