/**
 * fetch_landuse.py: parks, grass, land-use zones, parking, water, waterways
 * and railways around downtown Belleville from one Overpass response. Each
 * tagged way is classified by the first matching rule of a fixed chain and
 * kept when at least three of its nodes resolve.
 *
 * The response is a parameter; the request and the output file are not part
 * of this model.
 */
module FetchLanduse {
  import opened Seqs
  import opened Geo
  import opened Records
  import opened Osm

  /** The Illinois Street centre found by an earlier run of rebuild_all.py. */
  const Center: LonLat := LonLat(-89.984205, 38.521326)

  /** A feature type with its fill colour. */
  datatype Class = Class(kind: string, color: string)

  /** `tags.get(key) == value`. */
  predicate TagIs(tags: map<string, string>, key: string, value: string)
  {
    key in tags && tags[key] == value
  }

  /** `tags.get(key)` is truthy: present and not the empty string. */
  predicate TagSet(tags: map<string, string>, key: string)
  {
    key in tags && tags[key] != ""
  }

  /** The nine feature types. */
  const Kinds: set<string> :=
    {"park", "grass", "residential", "commercial", "industrial", "parking", "water", "waterway", "railway"}

  /** The fill colour of each type. Greenery shares one colour, water and
      waterways share another. */
  function ColourOf(kind: string): string
  {
    match kind
    case "park" => "#1a2a1a"
    case "grass" => "#1a2a1a"
    case "residential" => "#1c1c26"
    case "commercial" => "#1e1e28"
    case "industrial" => "#1a1a22"
    case "parking" => "#202028"
    case "water" => "#1a2a3a"
    case "waterway" => "#1a2a3a"
    case "railway" => "#2a2a2a"
    case _ => "#1a1a24"
  }

  /** The `if/elif` chain: the type and colour of a way, or `None` when no
      rule matches. */
  function Classify(tags: map<string, string>): (r: Option<Class>)
    ensures r.Some? ==> r.value.kind in Kinds && r.value.color == ColourOf(r.value.kind)
  {
    if TagIs(tags, "leisure", "park") then Some(Class("park", "#1a2a1a"))
    else if TagIs(tags, "landuse", "grass") then Some(Class("grass", "#1a2a1a"))
    else if TagIs(tags, "landuse", "residential") then Some(Class("residential", "#1c1c26"))
    else if TagIs(tags, "landuse", "commercial") then Some(Class("commercial", "#1e1e28"))
    else if TagIs(tags, "landuse", "industrial") then Some(Class("industrial", "#1a1a22"))
    else if TagIs(tags, "amenity", "parking") then Some(Class("parking", "#202028"))
    else if TagIs(tags, "natural", "water") then Some(Class("water", "#1a2a3a"))
    else if TagSet(tags, "waterway") then Some(Class("waterway", "#1a2a3a"))
    else if TagSet(tags, "railway") then Some(Class("railway", "#2a2a2a"))
    else None
  }

  /** Two types share a colour: the colour is a function of the type but not
      one-to-one. */
  lemma SharedColours()
    ensures ColourOf("park") == ColourOf("grass")
    ensures ColourOf("water") == ColourOf("waterway")
    ensures forall k1, k2 :: k1 in Kinds && k2 in Kinds && k1 != k2 && ColourOf(k1) == ColourOf(k2) ==>
              {k1, k2} == {"park", "grass"} || {k1, k2} == {"water", "waterway"}
  {
  }

  // ---------------------------------------------------------------- the rule table

  /** A rule's test on the tags. */
  datatype Test = Equals(key: string, value: string) | NonEmpty(key: string)

  datatype Rule = Rule(test: Test, cls: Class)

  predicate Matches(rule: Rule, tags: map<string, string>)
  {
    match rule.test
    case Equals(key, value) => TagIs(tags, key, value)
    case NonEmpty(key) => TagSet(tags, key)
  }

  /** The chain as a table, in the order the script tests it. */
  const Rules: seq<Rule> := [
    Rule(Equals("leisure", "park"), Class("park", "#1a2a1a")),
    Rule(Equals("landuse", "grass"), Class("grass", "#1a2a1a")),
    Rule(Equals("landuse", "residential"), Class("residential", "#1c1c26")),
    Rule(Equals("landuse", "commercial"), Class("commercial", "#1e1e28")),
    Rule(Equals("landuse", "industrial"), Class("industrial", "#1a1a22")),
    Rule(Equals("amenity", "parking"), Class("parking", "#202028")),
    Rule(Equals("natural", "water"), Class("water", "#1a2a3a")),
    Rule(NonEmpty("waterway"), Class("waterway", "#1a2a3a")),
    Rule(NonEmpty("railway"), Class("railway", "#2a2a2a"))]

  /** The class of the first rule that matches. */
  function FirstMatch(rules: seq<Rule>, tags: map<string, string>): Option<Class>
  {
    if rules == [] then None
    else if Matches(rules[0], tags) then Some(rules[0].cls)
    else FirstMatch(rules[1..], tags)
  }

  /** `FirstMatch` picks rule `i` exactly when rule `i` matches and no
      earlier rule does, and gives `None` exactly when no rule matches. */
  lemma {:induction false} FirstMatchSpec(rules: seq<Rule>, tags: map<string, string>)
    ensures FirstMatch(rules, tags).None? <==> forall i :: 0 <= i < |rules| ==> !Matches(rules[i], tags)
    ensures forall i :: 0 <= i < |rules| && Matches(rules[i], tags) ==>
              (forall j :: 0 <= j < i ==> !Matches(rules[j], tags)) ==>
              FirstMatch(rules, tags) == Some(rules[i].cls)
  {
    if rules != [] {
      FirstMatchSpec(rules[1..], tags);
      forall i | 0 < i < |rules| && Matches(rules[i], tags) && (forall j :: 0 <= j < i ==> !Matches(rules[j], tags))
        ensures FirstMatch(rules, tags) == Some(rules[i].cls)
      {
        assert !Matches(rules[0], tags);
        assert rules[1..][i - 1] == rules[i];
        forall j | 0 <= j < i - 1 ensures !Matches(rules[1..][j], tags) {
          assert rules[1..][j] == rules[j + 1];
        }
      }
    }
  }

  /** The chain is the first match over the table. */
  lemma ClassifyIsFirstMatch(tags: map<string, string>)
    ensures Classify(tags) == FirstMatch(Rules, tags)
  {
    assert FirstMatch(Rules[9..], tags) == None;
    assert FirstMatch(Rules[8..], tags) == if TagSet(tags, "railway") then Some(Class("railway", "#2a2a2a")) else FirstMatch(Rules[9..], tags);
    assert FirstMatch(Rules[7..], tags) == if TagSet(tags, "waterway") then Some(Class("waterway", "#1a2a3a")) else FirstMatch(Rules[8..], tags);
    assert FirstMatch(Rules[6..], tags) == if TagIs(tags, "natural", "water") then Some(Class("water", "#1a2a3a")) else FirstMatch(Rules[7..], tags);
    assert FirstMatch(Rules[5..], tags) == if TagIs(tags, "amenity", "parking") then Some(Class("parking", "#202028")) else FirstMatch(Rules[6..], tags);
    assert FirstMatch(Rules[4..], tags) == if TagIs(tags, "landuse", "industrial") then Some(Class("industrial", "#1a1a22")) else FirstMatch(Rules[5..], tags);
    assert FirstMatch(Rules[3..], tags) == if TagIs(tags, "landuse", "commercial") then Some(Class("commercial", "#1e1e28")) else FirstMatch(Rules[4..], tags);
    assert FirstMatch(Rules[2..], tags) == if TagIs(tags, "landuse", "residential") then Some(Class("residential", "#1c1c26")) else FirstMatch(Rules[3..], tags);
    assert FirstMatch(Rules[1..], tags) == if TagIs(tags, "landuse", "grass") then Some(Class("grass", "#1a2a1a")) else FirstMatch(Rules[2..], tags);
    assert FirstMatch(Rules[0..], tags) == if TagIs(tags, "leisure", "park") then Some(Class("park", "#1a2a1a")) else FirstMatch(Rules[1..], tags);
    assert Rules[0..] == Rules;
  }

  /** A way without tags matches no rule. */
  lemma NoTagsNoClass()
    ensures Classify(map[]) == None
  {
  }

  // ---------------------------------------------------------------- features

  /** `f"{feature_type}-{el['id']}"`. */
  function FeatureId(kind: string, id: nat): string
  {
    kind + "-" + NatToString(id)
  }

  /** The feature for one element: a way with tags that some rule classifies
      and with at least three resolved nodes. */
  function FeatureOf(el: Element, nodes: map<nat, LonLat>): Option<Feature>
  {
    if !el.Way? || el.tags == map[] then None
    else
      match Classify(el.tags)
      case None => None
      case Some(c) =>
        var points := LocalPath(NodeIds(el), nodes, Center);
        if |points| >= 3 then
          Some(Feature(FeatureId(c.kind, el.id), c.kind, Get(el.tags, "name", ""), points, Some(c.color)))
        else None
  }

  /** The features of a response, in element order. */
  function Features(els: seq<Element>, nodes: map<nat, LonLat>): seq<Feature>
  {
    FilterMap(els, el => FeatureOf(el, nodes))
  }

  /** `f` is the feature built from way `el`. */
  predicate FromWay(f: Feature, el: Element, nodes: map<nat, LonLat>)
  {
    && el.Way? && el.tags != map[]
    && Classify(el.tags) == Some(Class(f.kind, ColourOf(f.kind)))
    && f.id == FeatureId(f.kind, el.id)
    && f.name == Get(el.tags, "name", "")
    && f.points == LocalPath(NodeIds(el), nodes, Center)
  }

  /** Every feature has at least three points, one of the nine types and the
      colour of its type, and comes from a classified way of the response. */
  lemma FeaturesSound(els: seq<Element>, nodes: map<nat, LonLat>)
    ensures forall f :: f in Features(els, nodes) ==>
              && |f.points| >= 3
              && f.kind in Kinds
              && f.color == Some(ColourOf(f.kind))
              && exists el :: el in els && FromWay(f, el, nodes)
  {
    forall f | f in Features(els, nodes)
      ensures |f.points| >= 3 && f.kind in Kinds && f.color == Some(ColourOf(f.kind))
      ensures exists el :: el in els && FromWay(f, el, nodes)
    {
      var el :| el in els && FeatureOf(el, nodes) == Some(f);
      assert FromWay(f, el, nodes);
    }
  }

  /** Every tagged, classified way with at least three resolved nodes yields a
      feature. */
  lemma FeaturesComplete(els: seq<Element>, nodes: map<nat, LonLat>)
    ensures forall el :: el in els && el.Way? && Classify(el.tags).Some? ==>
              |LocalPath(NodeIds(el), nodes, Center)| >= 3 ==>
              exists f :: f in Features(els, nodes) && FromWay(f, el, nodes)
  {
    forall el | el in els && el.Way? && Classify(el.tags).Some? && |LocalPath(NodeIds(el), nodes, Center)| >= 3
      ensures exists f :: f in Features(els, nodes) && FromWay(f, el, nodes)
    {
      NoTagsNoClass();
      var f := FeatureOf(el, nodes).value;
      assert f in Features(els, nodes);
      assert FromWay(f, el, nodes);
    }
  }

  /** The element loop of the script. */
  method CollectFeatures(els: seq<Element>, nodes: map<nat, LonLat>) returns (features: seq<Feature>)
    ensures features == Features(els, nodes)
  {
    features := [];
    var i := 0;
    while i < |els|
      invariant 0 <= i <= |els|
      invariant features == Features(els[..i], nodes)
    {
      var el := els[i];
      assert els[..i + 1][..i] == els[..i];
      if el.Way? && el.tags != map[] {
        var c := Classify(el.tags);
        if c.Some? {
          var points := ResolvePoints(NodeIds(el), nodes, Center);
          if |points| >= 3 {
            var name := Get(el.tags, "name", "");
            features := features + [Feature(FeatureId(c.value.kind, el.id), c.value.kind, name, points, Some(c.value.color))];
          }
        }
      }
      i := i + 1;
    }
    assert els[..i] == els;
  }

  /** The script without its I/O: the node table, then the element loop. */
  method Fetch(els: seq<Element>) returns (features: seq<Feature>)
    ensures features == Features(els, NodeTable(els))
    ensures forall f :: f in features ==> |f.points| >= 3 && f.kind in Kinds && f.color == Some(ColourOf(f.kind))
  {
    var nodes := NodeTable(els);
    features := CollectFeatures(els, nodes);
    FeaturesSound(els, nodes);
  }
}
