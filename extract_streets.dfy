/**
 * extract_streets.py: the streets of downtown Belleville from one Overpass
 * response, converted to local metres around Public Square, with widths and
 * colours by highway type, and the per-type summary counts.
 *
 * The response is a parameter; the request and the output file are not part
 * of this model.
 */
module ExtractStreets {
  import opened Seqs
  import opened Geo
  import opened Records
  import opened Osm
  import ExtractDowntown

  /** `street_types` of extract_streets.py. */
  const StreetTypes: map<string, Style> := map[
    "primary" := Style(12, "#636e72"),
    "secondary" := Style(10, "#636e72"),
    "tertiary" := Style(8, "#4a5568"),
    "residential" := Style(6, "#4a5568"),
    "service" := Style(4, "#3d4448"),
    "footway" := Style(2, "#2d3436"),
    "path" := Style(2, "#2d3436")]

  /** Widths fall with the importance of the class; footways and paths share
      the narrowest. */
  lemma WidthsDecrease()
    ensures StreetTypes["primary"].width > StreetTypes["secondary"].width > StreetTypes["tertiary"].width
    ensures StreetTypes["tertiary"].width > StreetTypes["residential"].width > StreetTypes["service"].width
    ensures StreetTypes["service"].width > StreetTypes["footway"].width == StreetTypes["path"].width
  {
  }

  /** A highway type outside the table keeps its name but takes the
      residential width and colour. */
  lemma UnknownTypeDrawnResidential(kind: string)
    requires kind !in StreetTypes
    ensures StyleFor(StreetTypes, kind) == Style(6, "#4a5568")
  {
  }

  // ---------------------------------------------------------------- counting by type

  /** `by_type` after counting `streets`. */
  function Counts(streets: seq<Street>): map<string, nat>
  {
    if streets == [] then map[]
    else
      var m := Counts(streets[..|streets| - 1]);
      var t := streets[|streets| - 1].kind;
      m[t := (if t in m then m[t] else 0) + 1]
  }

  /** The number of streets of type `t`. */
  function CountOf(streets: seq<Street>, t: string): nat
  {
    if streets == [] then 0
    else CountOf(streets[..|streets| - 1], t) + (if streets[|streets| - 1].kind == t then 1 else 0)
  }

  /** The keys are exactly the types that occur, each mapped to its number of
      streets; a type that does not occur has no street. */
  lemma {:induction false} CountsSpec(streets: seq<Street>)
    ensures forall t :: t in Counts(streets) <==> exists s :: s in streets && s.kind == t
    ensures forall t :: CountOf(streets, t) == if t in Counts(streets) then Counts(streets)[t] else 0
  {
    if streets != [] {
      var init := streets[..|streets| - 1];
      CountsSpec(init);
      assert streets == init + [streets[|streets| - 1]];
    }
  }

  /** The sum of the values of a map. */
  ghost function MapSum(m: map<string, nat>): nat
    decreases |m|
  {
    if m == map[] then 0
    else
      var k :| k in m;
      m[k] + MapSum(m - {k})
  }

  /** The sum may be taken starting from any key. */
  lemma {:induction false} MapSumRemove(m: map<string, nat>, k: string)
    requires k in m
    ensures MapSum(m) == m[k] + MapSum(m - {k})
    decreases |m|
  {
    var j :| j in m && MapSum(m) == m[j] + MapSum(m - {j});
    if j != k {
      assert |m - {j}| == |m| - 1;
      assert |m - {k}| == |m| - 1;
      MapSumRemove(m - {j}, k);
      MapSumRemove(m - {k}, j);
      assert m - {j} - {k} == m - {k} - {j};
    }
  }

  /** Counting one more street adds one to the sum. */
  lemma MapSumIncrement(m: map<string, nat>, t: string)
    ensures MapSum(m[t := (if t in m then m[t] else 0) + 1]) == MapSum(m) + 1
  {
    var m' := m[t := (if t in m then m[t] else 0) + 1];
    MapSumRemove(m', t);
    assert m' - {t} == m - {t};
    if t in m {
      MapSumRemove(m, t);
    } else {
      assert m - {t} == m;
    }
  }

  /** The per-type counts add up to the number of streets. */
  lemma {:induction false} CountsSum(streets: seq<Street>)
    ensures MapSum(Counts(streets)) == |streets|
  {
    if streets != [] {
      CountsSum(streets[..|streets| - 1]);
      MapSumIncrement(Counts(streets[..|streets| - 1]), streets[|streets| - 1].kind);
    }
  }

  /** The loop `by_type[t] = by_type.get(t, 0) + 1`. */
  method CountByType(streets: seq<Street>) returns (byType: map<string, nat>)
    ensures byType == Counts(streets)
  {
    byType := map[];
    var i := 0;
    while i < |streets|
      invariant 0 <= i <= |streets|
      invariant byType == Counts(streets[..i])
    {
      assert streets[..i + 1][..i] == streets[..i];
      var t := streets[i].kind;
      byType := byType[t := (if t in byType then byType[t] else 0) + 1];
      i := i + 1;
    }
    assert streets[..i] == streets;
  }

  // ---------------------------------------------------------------- the script

  /** `main` without its I/O: the node table, the streets around Public
      Square, and the counts by type, which add up to the number of streets. */
  method Extract(els: seq<Element>) returns (streets: seq<Street>, byType: map<string, nat>)
    ensures streets == Streets(els, NodeTable(els), ExtractDowntown.Center, StreetTypes)
    ensures forall s :: s in streets ==> |s.points| >= 2 && s.style == Some(StyleFor(StreetTypes, s.kind))
    ensures forall t :: t in byType ==> byType[t] == CountOf(streets, t)
    ensures forall t :: t in byType <==> exists s :: s in streets && s.kind == t
    ensures MapSum(byType) == |streets|
  {
    var nodes := BuildNodeTable(els);
    streets := CollectStreets(els, nodes, ExtractDowntown.Center, StreetTypes);
    StreetsSound(els, nodes, ExtractDowntown.Center, StreetTypes);
    byType := CountByType(streets);
    CountsSpec(streets);
    CountsSum(streets);
  }
}
