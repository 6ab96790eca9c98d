/**
 * Overpass (OpenStreetMap) responses as rebuild_all.py, extract_streets.py
 * and fetch_landuse.py read them: the node table, the resolution of a way's
 * node ids to coordinates, and the street record built from a highway way.
 */
module Osm {
  import opened Seqs
  import opened Geo
  import opened Records

  /** One entry of `result['elements']`. A way without a `tags` key has an
      empty tag map; `nodes` is `None` when the way has no `nodes` key. */
  datatype Element =
    | Node(id: nat, lon: real, lat: real)
    | Way(id: nat, tags: map<string, string>, nodes: Option<seq<nat>>)
    | Relation(id: nat)

  /** `d.get(key, default)` on a tag map. */
  function Get(tags: map<string, string>, key: string, default: string): string
  {
    if key in tags then tags[key] else default
  }

  /** `el.get('nodes', [])`. */
  function NodeIds(el: Element): seq<nat>
  {
    if el.Way? && el.nodes.Some? then el.nodes.value else []
  }

  /** Element `k` is a node and no later node has the same id. */
  predicate LastNodeWithId(els: seq<Element>, k: nat)
    requires k < |els|
  {
    els[k].Node? && forall l :: k < l < |els| && els[l].Node? ==> els[l].id != els[k].id
  }

  /** `{el['id']: (el['lon'], el['lat']) for el in elements if el['type'] == 'node'}`. */
  function NodeTable(els: seq<Element>): map<nat, LonLat>
  {
    if els == [] then map[]
    else
      var t := NodeTable(els[..|els| - 1]);
      var e := els[|els| - 1];
      if e.Node? then t[e.id := LonLat(e.lon, e.lat)] else t
  }

  /** Every node id is a key of the table, nothing else is, and a repeated id
      keeps the position of its last node. */
  lemma {:induction false} NodeTableSpec(els: seq<Element>)
    ensures forall id :: id in NodeTable(els) <==> exists k :: 0 <= k < |els| && els[k].Node? && els[k].id == id
    ensures forall k :: 0 <= k < |els| && LastNodeWithId(els, k) ==>
              NodeTable(els)[els[k].id] == LonLat(els[k].lon, els[k].lat)
  {
    if els != [] {
      var init, e := els[..|els| - 1], els[|els| - 1];
      NodeTableSpec(init);
      assert forall k :: 0 <= k < |init| ==> init[k] == els[k];
      forall k | 0 <= k < |els| && LastNodeWithId(els, k)
        ensures NodeTable(els)[els[k].id] == LonLat(els[k].lon, els[k].lat)
      {
        if k < |init| {
          assert LastNodeWithId(init, k);
        }
      }
    }
  }

  /** The node-table loop of extract_streets.py. */
  method BuildNodeTable(els: seq<Element>) returns (nodes: map<nat, LonLat>)
    ensures nodes == NodeTable(els)
  {
    nodes := map[];
    var i := 0;
    while i < |els|
      invariant 0 <= i <= |els|
      invariant nodes == NodeTable(els[..i])
    {
      assert els[..i + 1][..i] == els[..i];
      var e := els[i];
      if e.Node? {
        nodes := nodes[e.id := LonLat(e.lon, e.lat)];
      }
      i := i + 1;
    }
    assert els[..i] == els;
  }

  /** The coordinates of the ids found in the node table, in order; ids
      missing from the table are skipped. */
  function Resolved(ids: seq<nat>, nodes: map<nat, LonLat>): (r: seq<LonLat>)
    ensures |r| <= |ids|
    ensures forall c :: c in r <==> exists id :: id in ids && id in nodes && nodes[id] == c
  {
    FilterMap(ids, (id: nat) => if id in nodes then Some(nodes[id]) else None)
  }

  /** When every id is in the table nothing is skipped. */
  lemma {:induction false} ResolvedAllKnown(ids: seq<nat>, nodes: map<nat, LonLat>)
    requires forall id :: id in ids ==> id in nodes
    ensures |Resolved(ids, nodes)| == |ids|
    ensures forall k :: 0 <= k < |ids| ==> Resolved(ids, nodes)[k] == nodes[ids[k]]
  {
    if ids != [] {
      var init := ids[..|ids| - 1];
      assert forall id :: id in init ==> id in ids;
      ResolvedAllKnown(init, nodes);
      assert Resolved(ids, nodes) == Resolved(init, nodes) + [nodes[ids[|ids| - 1]]];
    }
  }

  /** Resolving a longer id list extends the resolved list. */
  lemma ResolvedSnoc(ids: seq<nat>, nodes: map<nat, LonLat>, id: nat)
    ensures Resolved(ids + [id], nodes)
         == Resolved(ids, nodes) + (if id in nodes then [nodes[id]] else [])
  {
    assert (ids + [id])[..|ids|] == ids;
  }

  /** The local points of a way: its resolved coordinates converted around
      `centre`. */
  function LocalPath(ids: seq<nat>, nodes: map<nat, LonLat>, centre: LonLat): seq<Point>
  {
    var coords := Resolved(ids, nodes);
    seq(|coords|, k requires 0 <= k < |coords| => ToLocal(centre, coords[k]))
  }

  /** The inner loop `for nid in el['nodes']: if nid in nodes: points.append(to_local(...))`. */
  method ResolvePoints(ids: seq<nat>, nodes: map<nat, LonLat>, centre: LonLat) returns (points: seq<Point>)
    ensures points == LocalPath(ids, nodes, centre)
  {
    points := [];
    var i := 0;
    while i < |ids|
      invariant 0 <= i <= |ids|
      invariant points == LocalPath(ids[..i], nodes, centre)
    {
      var nid := ids[i];
      ResolvedSnoc(ids[..i], nodes, nid);
      assert ids[..i + 1] == ids[..i] + [nid];
      if nid in nodes {
        points := points + [ToLocal(centre, nodes[nid])];
      }
      i := i + 1;
    }
    assert ids[..i] == ids;
  }

  // ---------------------------------------------------------------- streets

  /** `street_types.get(highway_type, street_types['residential'])`. */
  function StyleFor(table: map<string, Style>, kind: string): Style
    requires "residential" in table
  {
    if kind in table then table[kind] else table["residential"]
  }

  /** The `'street-{id}'` id of the street built from way `id`. */
  function StreetId(id: nat): string
  {
    "street-" + NatToString(id)
  }

  /** The record for one element: ways with a `nodes` key whose ids resolve
      to at least two points become streets; the type defaults to
      `residential` and the name to the empty string. */
  function StreetOf(el: Element, nodes: map<nat, LonLat>, centre: LonLat, table: map<string, Style>): Option<Street>
    requires "residential" in table
  {
    if !el.Way? || el.nodes.None? then None
    else
      var kind := Get(el.tags, "highway", "residential");
      var points := LocalPath(el.nodes.value, nodes, centre);
      if |points| >= 2 then
        Some(Street(StreetId(el.id), Get(el.tags, "name", ""), kind, points, Some(StyleFor(table, kind))))
      else None
  }

  /** The streets of a response, in element order. */
  function Streets(els: seq<Element>, nodes: map<nat, LonLat>, centre: LonLat, table: map<string, Style>): seq<Street>
    requires "residential" in table
  {
    FilterMap(els, el => StreetOf(el, nodes, centre, table))
  }

  /** Every street comes from a way of the response whose node ids resolve to
      its (at least two) points; its type is the way's `highway` tag or
      `residential`, and its style is the table's entry for that type, or the
      residential one for a type the table does not know. */
  lemma StreetsSound(els: seq<Element>, nodes: map<nat, LonLat>, centre: LonLat, table: map<string, Style>)
    requires "residential" in table
    ensures |Streets(els, nodes, centre, table)| <= |els|
    ensures forall s :: s in Streets(els, nodes, centre, table) ==>
              && |s.points| >= 2
              && s.style == Some(StyleFor(table, s.kind))
              && (s.kind !in table ==> s.style == Some(table["residential"]))
              && exists el :: el in els && FromWay(s, el, nodes, centre)
  {
    var r := Streets(els, nodes, centre, table);
    forall s | s in r
      ensures |s.points| >= 2 && s.style == Some(StyleFor(table, s.kind))
      ensures exists el :: el in els && FromWay(s, el, nodes, centre)
    {
      var el :| el in els && StreetOf(el, nodes, centre, table) == Some(s);
      assert FromWay(s, el, nodes, centre);
    }
  }

  /** `s` is the street built from way `el`. */
  predicate FromWay(s: Street, el: Element, nodes: map<nat, LonLat>, centre: LonLat)
  {
    && el.Way? && el.nodes.Some?
    && s.id == StreetId(el.id)
    && s.name == Get(el.tags, "name", "")
    && s.kind == Get(el.tags, "highway", "residential")
    && s.points == LocalPath(el.nodes.value, nodes, centre)
  }

  /** Every way with a `nodes` key resolving to at least two points yields a
      street. */
  lemma StreetsComplete(els: seq<Element>, nodes: map<nat, LonLat>, centre: LonLat, table: map<string, Style>)
    requires "residential" in table
    ensures forall el :: el in els && el.Way? && el.nodes.Some? && |LocalPath(el.nodes.value, nodes, centre)| >= 2 ==>
              exists s :: s in Streets(els, nodes, centre, table) && FromWay(s, el, nodes, centre)
  {
    var r := Streets(els, nodes, centre, table);
    forall el | el in els && el.Way? && el.nodes.Some? && |LocalPath(el.nodes.value, nodes, centre)| >= 2
      ensures exists s :: s in r && FromWay(s, el, nodes, centre)
    {
      var s := StreetOf(el, nodes, centre, table).value;
      assert s in r;
      assert FromWay(s, el, nodes, centre);
    }
  }

  /** Different ways give streets with different ids. */
  lemma StreetIdInjective(a: nat, b: nat)
    requires StreetId(a) == StreetId(b)
    ensures a == b
  {
    PrefixedNatInjective("street-", a, b);
  }

  /** The street loop of rebuild_all.py and extract_streets.py. */
  method CollectStreets(els: seq<Element>, nodes: map<nat, LonLat>, centre: LonLat, table: map<string, Style>)
    returns (streets: seq<Street>)
    requires "residential" in table
    ensures streets == Streets(els, nodes, centre, table)
  {
    streets := [];
    var i := 0;
    while i < |els|
      invariant 0 <= i <= |els|
      invariant streets == Streets(els[..i], nodes, centre, table)
    {
      var el := els[i];
      assert els[..i + 1][..i] == els[..i];
      if el.Way? && el.nodes.Some? {
        var kind := Get(el.tags, "highway", "residential");
        var name := Get(el.tags, "name", "");
        var points := ResolvePoints(el.nodes.value, nodes, centre);
        if |points| >= 2 {
          var style := StyleFor(table, kind);
          streets := streets + [Street(StreetId(el.id), name, kind, points, Some(style))];
        }
      }
      i := i + 1;
    }
    assert els[..i] == els;
  }
}
