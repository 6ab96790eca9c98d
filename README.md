# Belleville downtown map: data preparation, modelled in Dafny

The downtown map of Belleville, Illinois draws buildings, streets and land use
from three JSON files: `buildings.json`, `streets.json` and `landuse.json`.
A set of Python scripts makes these files and then corrects them. This project
models the transforms inside those scripts and proves what they promise:

- **Extraction.** `extract_downtown.py` and `rebuild_all.py` read county
  building footprints and OpenStreetMap ways. `extract_streets.py` and
  `fetch_landuse.py` read OpenStreetMap ways. `scripts/fetch-overture-data.py`
  reads Overture Maps rows. Each one turns what it reads into local metre
  coordinates.
- **Building derivation.** A footprint is simplified by stride sampling. Its
  bounding box gives the position and size. Tiny buildings are dropped, and
  height comes from four area bands. The buildings are then sorted by
  distance from the origin, renumbered `bldg-1 .. bldg-N` and coloured from a
  14-entry palette.
- **Classification.** Road classes and land-use tags are mapped onto the
  map's closed set of types.
- **Alignment.** `finalize_streets.py`, `fix_alignment.py` and
  `align_streets.py` filter and clip the streets to the box of the building
  footprints. `fix_alignment.py` and `align_streets.py` also shift the streets
  first. `recenter_data.py` and `recenter_correct.py` apply rigid
  translations.

Modules follow the scripts:

- `Seqs` holds sequence helpers: subsequences, filters and stride sampling.
- `Geo` holds points, boxes, min/max/mean, translation and the local
  projection.
- `Records` holds the JSON records.
- `BuildingDerivation` holds what the two shapefile scripts share.
- `Osm` holds node tables, way resolution and street records.
- `Transform` holds the footprint box, the shifts and the touching filter.
- There is one module per script.

Each loop that builds or rewrites a list in the scripts is a `method` with a
`while` loop. It is proved equal to a specification function. The properties
themselves are lemmas about those functions.

Coordinates are real numbers. Python's `round(x, 1)` is modelled by
`Geo.Round1`, the identity, at every place the scripts round. Python's
`hash()` is an integer field of each row. `math.cos(math.radians(lat))` is a
positive real parameter `cosLat`.

A few facts the proofs bring out:

- The height bands drop at area 50. A 49.5 m² footprint gets height 9.95,
  and a 50 m² footprint gets 9.67 (`BuildingDerivation.HeightDropsAtFifty`).
- `fetch_landuse.py` gives park and grass one colour, and water and waterway
  another. The colour is a function of the type, but the types do not each
  have their own colour (`FetchLanduse.SharedColours`).
- The Overture converter keeps +z pointing north. The other scripts point +z
  south (`Overture.OppositeNorth`).
- The Overture building position is the mean of the footprint corners, while
  its size is the bounding-box extent. The box drawn around the position can
  therefore miss a corner (`Overture.MeanPositionCanMissCorner`).
- `recenter_correct.py` undoes recenter_data.py's shift rounded to a
  decimetre, then applies exactly the shift recenter_data.py applied. The net
  move is (-0.039, -0.023) m, so the fountain ends a few centimetres from the
  origin (`RecenterCorrect.ShiftsCompared`, `RecenterCorrect.AfterBothScripts`).

## Model

| member | source | states |
|---|---|---|
| Geo.ToLocal | extract_downtown.py:35-39 | The centre maps to (0, 0). x is positive exactly east of the centre. z is positive exactly south of the centre (+Z is south). |
| Geo.ToLocalRoundTrip | rebuild_all.py:69-72 | The local conversion is invertible: converting back gives the original longitude and latitude. |
| Geo.ConvertPoints | extract_downtown.py:89-93 | The per-point conversion loop yields every point of the shape converted, in order. |
| Geo.BoundsOf | extract_downtown.py:99-102 | The min/max box of a non-empty point list holds every point, and each of its four sides is reached by some point. |
| Geo.MeanBetween | rebuild_all.py:49 | The average of a non-empty list lies between its minimum and its maximum. |
| Geo.FlattenSpec | finalize_streets.py:13-14 | The flattened point list holds exactly the points of the parts, and it is empty exactly when every part is empty. |
| Geo.TranslateCompose | recenter_correct.py:40-48 | Two translations equal one translation by the sum of the offsets. |
| Geo.TranslateInverse | recenter_correct.py:40-41 | Translating by the negated offset undoes a translation. |
| Geo.BoundsOfTranslate | fix_alignment.py:20-23 | Translating a point list moves each side of its box by the offset. |
| Geo.CentreOfTranslate | fix_alignment.py:20-27 | Translating a point list moves the centre of its box by exactly the offset. |
| BuildingDerivation.HeightFromArea | extract_downtown.py:113-122 | For area >= 0 the height lies in [5, 43]. From area 2000 it is the cap 43. Below area 50 it is under 10. |
| BuildingDerivation.HeightDropsAtFifty | extract_downtown.py:115-118 | The bands are not monotone: area 49.5 gives a greater height than area 50. |
| BuildingDerivation.FromBounds | extract_downtown.py:104-129 | No building exactly when width < 3 or depth < 3. Otherwise the position is the box centre at y = 0, and the size is (width, height from area, depth). |
| BuildingDerivation.DeriveBuilding | extract_downtown.py:98-129 | The building is derived from its own footprint's box. It keeps the given id and the footprint, and it is valid. |
| BuildingDerivation.DerivedIsValid | extract_downtown.py:99-129 | Every footprint point lies within the box drawn from the building's position and size. |
| BuildingDerivation.Insert | extract_downtown.py:136 | Inserting into a distance-sorted list keeps it sorted and adds exactly that building. |
| BuildingDerivation.SortByDistance | extract_downtown.py:136 | The result is sorted by squared distance from the origin and is a permutation of the input. |
| BuildingDerivation.RenumberedIdsDistinct | extract_downtown.py:145-148 | After renumbering, all ids are distinct, and colours repeat with period 14. |
| BuildingDerivation.RenumberedKeepsGeometry | extract_downtown.py:145-148 | Renumbering changes only id and colour. It keeps footprints, positions, sizes and order, and so keeps sortedness and validity. |
| BuildingDerivation.RenumberAndColour | rebuild_all.py:212-214 | The colour/id loop gives building i the id `bldg-{i+1}` and palette colour i mod 14, changing nothing else. |
| BuildingDerivation.FinishedProperties | extract_downtown.py:136-148 | Sorting then renumbering valid buildings gives sorted, valid buildings with ids `bldg-1..bldg-N`, cycled colours and distinct ids. |
| ExtractDowntown.ConvertToLocal | extract_downtown.py:35-39 | The Public Square centre maps to (0, 0), and z is positive exactly south of it. |
| ExtractDowntown.StepFor | extract_downtown.py:47 | The sampling step is at least 1, and it is below n when there are more than 4 points. |
| ExtractDowntown.SimplifyPolygon | extract_downtown.py:41-54 | At most 4 points: unchanged. Otherwise the stride sample (an order-preserving subsequence), with the first point appended exactly when the sample does not already end with it. The length is between 2 and n+1, and the result starts and ends with the first input point. |
| Seqs.StrideIndices | extract_downtown.py:47-48 | The sampled points are exactly those at indices 0, step, 2·step, … below n. |
| Seqs.StrideSubsequence | rebuild_all.py:174-175 | The stride sample is an order-preserving subsequence of its input, and no longer than it. |
| ExtractDowntown.ShapeStepKeeps | extract_downtown.py:71-131 | One shape-loop step keeps the invariant: buildings are valid, and at most `in_bounds` of them, which counts at most the shapes seen. |
| ExtractDowntown.CollectAllProperties | extract_downtown.py:67-131 | After the loop: buildings <= in_bounds <= shapes, and every building is valid with no name and no colour yet. |
| ExtractDowntown.ProcessShape | extract_downtown.py:71-131 | The loop body skips empty shapes and shapes starting outside downtown. Otherwise it counts the shape, converts, simplifies and derives, as the shape-step function says. |
| ExtractDowntown.CollectBuildings | extract_downtown.py:67-131 | The shape loop yields the buildings and count that the fold of the shape step gives. |
| ExtractDowntown.ExtractBuildings | extract_downtown.py:56-148 | The output is sorted by distance, has no more buildings than shapes, and has ids `bldg-{i+1}`, colours `colors[i % 14]`, distinct ids and valid buildings. |
| Osm.NodeTableSpec | rebuild_all.py:40 | The node table's keys are exactly the node ids, and a repeated id keeps its last node's position. |
| Osm.BuildNodeTable | extract_streets.py:60-63 | The node loop builds that table. |
| Osm.Resolved | rebuild_all.py:112-116 | Resolved coordinates are exactly the table entries of listed ids. Missing ids are skipped, so there are never more coordinates than ids. |
| Osm.ResolvedAllKnown | rebuild_all.py:112-116 | When every id is in the table, nothing is skipped and order is kept. |
| Osm.ResolvePoints | extract_streets.py:84-89 | The inner node loop yields the converted positions of the ids found, in order. |
| Osm.StreetsSound | extract_streets.py:77-101 | Every street comes from a way with nodes. It has at least 2 resolved points, type = `highway` or `residential`, name = `name` or empty, and the style for its type (the residential style when the type is unknown). |
| Osm.StreetsComplete | extract_streets.py:77-101 | Every way with nodes that resolves to at least 2 points yields a street. |
| Osm.StreetIdInjective | extract_streets.py:94 | Different way ids give different `street-{id}` ids. |
| Osm.CollectStreets | rebuild_all.py:102-127 | The street loop yields the streets of the response, in element order. |
| ExtractStreets.WidthsDecrease | extract_streets.py:67-75 | Widths decrease strictly by class, from primary down to service, with footway equal to path below service. |
| ExtractStreets.UnknownTypeDrawnResidential | extract_streets.py:92 | An unknown type is drawn with the residential width 6 and colour. |
| ExtractStreets.CountsSpec | extract_streets.py:113-116 | The keys of the counts are exactly the types present, and each count is the number of streets of that type. |
| ExtractStreets.CountsSum | extract_streets.py:113-116 | The per-type counts sum to the number of streets. |
| ExtractStreets.CountByType | extract_streets.py:113-116 | The counting loop yields those counts. |
| ExtractStreets.Extract | extract_streets.py:29-116 | The script yields the streets of the response around the Public Square centre, each with at least 2 points and its type's style, and counts that match them and sum to their number. |
| RebuildAll.WayCoordsFromTable | rebuild_all.py:41-46 | Every collected coordinate is the table position of a node id listed by some way. |
| RebuildAll.ResolveCoords | rebuild_all.py:44-46 | The inner loop appends the positions of the way's ids found in the table. |
| RebuildAll.CollectCoords | rebuild_all.py:41-46 | The coordinate loop yields those positions, way by way. |
| RebuildAll.IllinoisCentre | rebuild_all.py:48-62 | There is no centre exactly when there are no coordinates (the script exits). Otherwise the longitude is the mean of the longitudes, which lies within their range, and the latitude is the midpoint of min and max. |
| RebuildAll.StraightStreetIsMeridian | rebuild_all.py:56-72 | When all street nodes share one longitude, that longitude is the centre, and every node converts to x = 0. |
| RebuildAll.UnknownTypeDrawnResidential | rebuild_all.py:119-126 | An unknown type keeps its own type but is drawn with residential width 6 and colour. |
| RebuildAll.AreaFilterKeeps | rebuild_all.py:132 | A street is kept exactly when a point lies strictly inside (-900, 900) × (-800, 600). Kept streets are unchanged and in order. |
| RebuildAll.Footprint | rebuild_all.py:166-175 | The footprint starts with the first converted point and is an order-preserving subsequence of all converted points. |
| RebuildAll.AddShapeNumbered | rebuild_all.py:195-196 | Appending a building numbers it one past those kept, and adds at most one building. |
| RebuildAll.AddShapeSampled | rebuild_all.py:152-200 | A new building comes from the current shape. |
| RebuildAll.FootprintSample | rebuild_all.py:163-175 | An in-bounds shape's footprint is a stride sample of its converted points. |
| RebuildAll.ShapeBuildingsProperties | rebuild_all.py:151-200 | No more buildings than shapes. Ids are `bldg-1..` in order. Each building is valid and built from a sample of an in-downtown shape. |
| RebuildAll.CollectShapes | rebuild_all.py:151-200 | The shape loop yields those buildings. |
| RebuildAll.Rebuild | rebuild_all.py:39-214 | None exactly when Illinois Street has no coordinates. Otherwise the centre comes from it, the streets are filtered to the area, and the buildings are sorted, renumbered, coloured and valid. |
| FetchLanduse.Classify | fetch_landuse.py:63-93 | A class, when there is one, is one of the nine types, with that type's colour. |
| FetchLanduse.FirstMatchSpec | fetch_landuse.py:67-93 | No class exactly when no rule matches. Otherwise the class is that of the first matching rule. |
| FetchLanduse.ClassifyIsFirstMatch | fetch_landuse.py:67-93 | The elif chain is first-match over the rules, in the order park, grass, residential, commercial, industrial, parking, water, waterway, railway. |
| FetchLanduse.SharedColours | fetch_landuse.py:67-93 | Park and grass share a colour, as do water and waterway, and no other two types do. |
| FetchLanduse.NoTagsNoClass | fetch_landuse.py:59-61 | A way without tags gets no class. |
| FetchLanduse.FeaturesSound | fetch_landuse.py:55-113 | Each feature comes from a tagged, classified way. It has at least 3 resolved points, id `{type}-{way id}`, its name, and its type's colour. |
| FetchLanduse.FeaturesComplete | fetch_landuse.py:95-113 | Every classified way whose ids resolve to at least 3 points yields a feature. |
| FetchLanduse.CollectFeatures | fetch_landuse.py:54-113 | The feature loop yields the features of the response, in order. |
| FetchLanduse.Fetch | fetch_landuse.py:52-113 | The script's features have at least 3 points, a listed type and that type's colour. |
| Overture.KmToDegrees | scripts/fetch-overture-data.py:37-43 | Latitude degrees are km/111. Longitude degrees are km/(111·cos). For cos <= 1 the longitude span is at least the latitude span. |
| Overture.CreateBBox | scripts/fetch-overture-data.py:46-54 | The centre is each axis's midpoint, and the spans equal twice the radius. With a positive radius, min < centre < max on both axes. |
| Overture.LatLonToLocal | scripts/fetch-overture-data.py:57-62 | The centre maps to (0, 0). x is positive exactly east of the centre. z is positive exactly north of the centre (not negated). |
| Overture.LatLonToLocalRoundTrip | scripts/fetch-overture-data.py:57-62 | The conversion is invertible for a positive cosine. |
| Overture.OppositeNorth | scripts/fetch-overture-data.py:61 | Its z is the negation of the other scripts' z. |
| Overture.OuterRings | scripts/fetch-overture-data.py:166-172 | A Polygon gives its outer ring. A MultiPolygon gives each polygon's outer ring. Other geometries are skipped. |
| Overture.OpenRing | scripts/fetch-overture-data.py:176-177 | The closing point is dropped and the other points are kept in order. |
| Overture.RingId | scripts/fetch-overture-data.py:214 | Ring 0 gets no suffix. A later ring gets a `-{k}` suffix after the base id. |
| Overture.RingIdsDistinct | scripts/fetch-overture-data.py:214 | Different rings of one row get different ids. |
| Overture.RoadType | scripts/fetch-overture-data.py:114-125 | The type is always one of primary, secondary, tertiary, residential and service. Motorway and trunk become primary, and unknown classes become residential. |
| Overture.RoadsCount | scripts/fetch-overture-data.py:99-105 | Exactly the LineString rows produce streets. |
| Overture.RoadsSound | scripts/fetch-overture-data.py:99-132 | Each road comes from a LineString row: id `street-{id}`, the mapped type, and one point per coordinate. |
| Overture.FetchRoads | scripts/fetch-overture-data.py:98-134 | The road loop yields those streets, in row order. |
| Overture.BuildingHeight | scripts/fetch-overture-data.py:187-192 | A given non-zero height wins. Otherwise floors × 3.5. Otherwise 8 + hash mod 25, in [8, 32]. |
| Overture.ColourFor | scripts/fetch-overture-data.py:202-211 | The colour is always an entry of the 25-colour palette. |
| Overture.RingBuildingSound | scripts/fetch-overture-data.py:174-220 | A ring yields a building exactly when it keeps at least 3 points once opened. The position is the mean of the footprint points (so within the footprint box) at y = 0, the size is (box width, height, box depth), and the id is the ring id. |
| Overture.BuildingsSound | scripts/fetch-overture-data.py:159-222 | Each building comes from a polygonal row as above: mean position, box size, the row's height, name and palette colour, and a ring id. |
| Overture.BuildingsComplete | scripts/fetch-overture-data.py:159-222 | Each outer ring with at least 3 open points yields its building. |
| Overture.MeanPositionCanMissCorner | scripts/fetch-overture-data.py:182-198 | For a triangular ring, the building the script makes has its drawn box (mean position ± half the box width) end short of the east corner. |
| Overture.ConvertRing | scripts/fetch-overture-data.py:174-220 | The ring loop body builds that ring's building. |
| Overture.ConvertRow | scripts/fetch-overture-data.py:160-220 | The row body yields the buildings of the row's rings, in ring order. |
| Overture.FetchBuildings | scripts/fetch-overture-data.py:159-222 | The building loop yields the buildings of all rows, in order. |
| Overture.AllResults | scripts/fetch-overture-data.py:229-291 | Land rows come first, then water and infrastructure rows when those queries succeed. A failed query adds no rows. |
| Overture.FeatureType | scripts/fetch-overture-data.py:316-332 | Water is always `water`. Infrastructure is `railway` exactly for railway, otherwise `parking`. Land maps through the table, else keeps its class, else `park`. |
| Overture.RingFeatureSound | scripts/fetch-overture-data.py:308-339 | A ring yields a feature exactly when it keeps at least 3 points. The feature has the mapped type, the name and id `{type}-{id}[-k]`. |
| Overture.FeaturesSound | scripts/fetch-overture-data.py:294-341 | Each feature comes from a polygonal row as above. |
| Overture.FeaturesComplete | scripts/fetch-overture-data.py:294-341 | Each outer ring with at least 3 open points yields its feature. |
| Overture.ConvertLanduseRow | scripts/fetch-overture-data.py:295-339 | The row body yields the features of the row's rings. |
| Overture.ConvertLanduseRows | scripts/fetch-overture-data.py:294-339 | The loop over `all_results` yields the features of all rows, in order. |
| Overture.FetchLanduse | scripts/fetch-overture-data.py:225-341 | The landuse fetch yields the features of all results, in order. |
| Overture.FetchAll | scripts/fetch-overture-data.py:344-364 | The box is centred on the Overture centre and contains it. The three outputs are the roads, buildings and features of their rows. |
| Transform.FootprintBox | finalize_streets.py:13-16 | No box exactly when there is no footprint point. Otherwise it is the min/max box of all footprint points, so it holds every footprint point. |
| Transform.ShiftedStreetsKeep | fix_alignment.py:32-36 | Shifting moves every street point by exactly the offset, keeping count and order. Ids, names, types and styles are unchanged. |
| Transform.ShiftedStreetsCompose | recenter_correct.py:72-76 | Two street shifts are one shift by the sum. |
| Transform.StreetPointsOfShift | fix_alignment.py:20-36 | The points of the shifted streets are the shifted street points. |
| Transform.ShiftStreets | align_streets.py:18-22 | The loop rewriting each street's points yields the shifted streets. |
| Transform.ShiftedBuildingsKeep | recenter_data.py:34-47 | Shifting moves position x and z and every footprint point by the offset. It keeps position y, id, name, size and colour. |
| Transform.ShiftedBuildingsCompose | recenter_correct.py:56-62 | Two building shifts are one shift by the sum. |
| Transform.ShiftBuildings | recenter_correct.py:56-62 | The loop over buildings yields the shifted buildings. |
| Transform.TouchingSpec | fix_alignment.py:43-52 | A street is kept exactly when one of its points is in the box. Kept streets are unclipped, in order, and no more than the input. |
| Transform.KeepTouching | align_streets.py:31-34 | The filter loop yields exactly those streets. |
| FinalizeStreets.FilterArea | finalize_streets.py:13-23 | No area exactly when there is no footprint point. Otherwise it is the min/max box of all footprint points grown by 30 on every side. |
| FinalizeStreets.FilterAreaMargin | finalize_streets.py:18-23 | Every footprint point lies at least 30 m inside the filter area on each side, and each side lies exactly 30 m beyond some footprint point. |
| FinalizeStreets.InBoxPoints | finalize_streets.py:31-34 | The kept points are exactly the street's points inside the box. |
| FinalizeStreets.InBoxPointsInOrder | finalize_streets.py:31-34 | The kept points are an order-preserving subsequence of the street's points. |
| FinalizeStreets.Clipped | finalize_streets.py:31-38 | A street is kept exactly when at least 2 of its points are in the box. It then keeps id, name, type and style, and all its points are old points in the box. |
| FinalizeStreets.FinalizedSound | finalize_streets.py:28-38 | Every output street has at least 2 points, all in the box. It is an input street whose points are replaced by their in-box subsequence. |
| FinalizeStreets.FinalizedComplete | finalize_streets.py:28-38 | Every street with at least 2 in-box points is kept. |
| FinalizeStreets.FinalizedInOrder | finalize_streets.py:28-38 | Kept streets come in the input order. |
| FinalizeStreets.FilterAndClip | finalize_streets.py:28-38 | The filter-and-clip loop yields exactly the finalized streets. |
| FinalizeStreets.Finalize | finalize_streets.py:6-44 | None exactly when there is no footprint point. Otherwise the output has no more streets than the input, each with at least 2 points, all inside the grown box. |
| FixAlignment.Offset | fix_alignment.py:15-27 | The offset exists exactly when both buildings and streets have points, and it is the building box centre minus the street box centre. |
| FixAlignment.CentresCoincide | fix_alignment.py:15-36 | After the shift, the centre of the streets' box is the centre of the buildings' box. |
| FixAlignment.Fix | fix_alignment.py:14-71 | The script writes the shifted streets that touch the footprint box grown by 50 m, unclipped and in order. It stops when either side has no point or no street is kept. |
| AlignStreets.Align | align_streets.py:14-40 | Each kept street is an input street moved +27 in x and not at all in z, with all else unchanged. Kept means touching the footprint box grown by 100 m. There are no more streets than before. |
| RecenterData.OffsetIsFountain | recenter_data.py:9-23 | The old centre is extract_downtown.py's centre, and the offset is the fountain's position in that frame: (-87.261, -244.977). |
| RecenterData.RecenterIsReprojection | recenter_data.py:21-23 | Shifting by minus the offset equals converting around the fountain, so the fountain goes to (0, 0). |
| RecenterData.Recenter | recenter_data.py:30-63 | Every building position (x, z) and footprint point, and every street point, moves by minus the offset. Nothing else changes. |
| RecenterCorrect.ShiftsCompared | recenter_correct.py:28-48 | The correct shift is exactly minus recenter_data.py's offset, and the undo is that offset to within 5 cm. The total is (-0.039, -0.023). |
| RecenterCorrect.TotalIsComposition | recenter_correct.py:40-48 | Undoing then shifting equals one translation by the total, for buildings and for streets. |
| RecenterCorrect.AfterBothScripts | recenter_correct.py:21-48 | After both scripts, a point sits at its fountain-centred position moved by the total, and the fountain sits at (-0.039, -0.023). |
| RecenterCorrect.Correct | recenter_correct.py:52-76 | Every building position (x, z) and footprint point, and every street point, moves by the total. Nothing else changes. |

## Left out

- Network and file I/O are not modelled. This covers the Overpass HTTP requests and SSL contexts, the Overture queries through DuckDB, and JSON reading and writing. Responses and rows are parameters, and the written files are results.
- Shapefile reading and the pyproj transform from EPSG:3436 to WGS84 are foreign code. Shapes are given already in longitude/latitude. A point whose transform raises is not modelled, so no shape is skipped for that reason.
- `round(x, 1)` is the identity `Geo.Round1`. Decimal rounding to tenths and floating-point arithmetic in general are not modelled, so the properties hold for exact reals.
- Python's `hash()` of an Overture id is an integer field of each row. Its randomisation across runs is not modelled.
- `math.cos(math.radians(lat))` is a positive parameter `cosLat`, as are the degree deltas that depend on it.
- The Overpass query filters and the Overture bounding-box filters run inside the foreign services. Which elements a response contains is not modelled.
- Printed reports are not modelled: progress lines, counts, sample buildings, and the Illinois Street checks in rebuild_all.py, align_streets.py and the recentering scripts. The exception is fix_alignment.py's `min` of the kept streets' points, which stops the script when none is kept; `FixAlignment.Fix` models that stop.
- The type counts of finalize_streets.py and fetch_landuse.py are printed only. They are the same computation as `ExtractStreets.Counts`, and are not modelled again.
- rebuild_all.py computes `avg_lat` but never uses it, so it is not modelled.
- `BuildingDerivation.SortByDistance` is not shown to be stable. Python's `list.sort` keeps equal-distance buildings in their original order; the model states only sortedness and permutation.
- The scripts update dictionaries and lists in place. The model passes them as values, so aliasing between records is not captured.
- Overture polygon holes are ignored, as the script ignores them.
- `FinalizeStreets.FilterArea`: the four `-=`/`+=` margin updates are modelled as one `Expand` of the box.
- `Overture.FetchLanduse`: its contract states the result as the features of all results. Provenance and the at-least-3-points property are proved separately, in `Overture.FeaturesSound`.
- `FetchLanduse.Classify`: the colour is a function of the type, but the types do not each have their own colour. Park/grass and water/waterway share one, as `FetchLanduse.SharedColours` shows.
