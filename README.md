# Truck parking data pipeline — a Dafny model

The verzorgingsplaatsen scripts build a dataset of truck parking facilities
along Dutch motorways. They:

- turn OpenStreetMap Overpass results into facility records;
- classify those records (truck parking, rest area, service area, or a
  vehicle type for a parking space or area);
- estimate how many trucks fit on a parking area;
- aggregate the records into statistics, data-quality gaps and
  recommendations;
- map the records onto GeoJSON features, CSV rows and a JSON summary;
- select facilities inside the Maasvlakte and Rotterdam port boxes.

This project models that record processing in Dafny and proves what each
script promises about its output. One module corresponds to each script:

| module | script |
|---|---|
| `CollectOsmData` | collect_osm_data.py |
| `EnrichData` | enrich_data.py |
| `ExtractAllOsmParking` | extract_all_osm_parking.py |
| `OsmParkingExtractor` | osm_parking_extractor.py |
| `ExtractSouthHollandParking` | extract_south_holland_parking.py |
| `ClassifyParkingByVehicleType` | classify_parking_by_vehicle_type.py |
| `EstimateMaasvlaktePilot` | estimate_maasvlakte_pilot.py |
| `GenerateOutputs` | generate_outputs.py |
| `GenerateReport` | generate_report.py |
| `AnalyzeData` | scripts/analyze_data.py |
| `FindRotterdamFacilities` | find_rotterdam_facilities.py |

Four shared modules hold what several scripts use:

- `Common`: `Option`/`Result`, string helpers, Python's `int()` on strings,
  generic filters.
- `Counters`: `collections.defaultdict(int)` counters, the `Tally` of a key
  sequence, and the sum of all counts.
- `Osm`: Overpass elements, the node lookup, and `[lon, lat]` positions.
- `Records`: the facility record that collect_osm_data.py writes and the
  later scripts read.

Modelling conventions:

- Tags and nested dictionaries are `map<string, string>`. A missing
  dictionary is the empty map.
- A Python truthy optional string is one that is present and non-empty.
- Confidences are integer hundredths: 0.7 is 70.
- Coordinates and metres are `real`.
- Loops over records are `method`s with loop invariants. Each is proved
  against a function on its input; the lemmas state the promised
  properties of that function.
- Things the code reaches outside itself for are parameters: the polygon
  area, the timestamp, and shapely's containment test.

## Model

| member | source | states |
|---|---|---|
| CollectOsmData.ConfidenceScore | collect_osm_data.py:255-273 | the score is 50 plus the fixed bonuses 10, 15, 10, 5, 5 and 5, so it lies in [50, 100] and the cap at 1.0 never changes it |
| CollectOsmData.ConfidenceBase | collect_osm_data.py:255-273 | a facility with none of the scored attributes gets exactly the base score 0.5 |
| CollectOsmData.ConfidenceMonotone | collect_osm_data.py:259-271 | a facility with every scored attribute another one has never scores lower |
| CollectOsmData.ConfidenceNoBonus | collect_osm_data.py:260-270 | the name `Unnamed` earns no name bonus; an `hgv` other than `yes`/`designated` earns no HGV bonus |
| CollectOsmData.FacilityIdInjective | collect_osm_data.py:113 | `osm_<type>_<id>` determines type and id: distinct elements get distinct ids |
| CollectOsmData.BuildFacility | collect_osm_data.py:112-222 | builds the record of one element, equal to the record function the lemmas below describe |
| CollectOsmData.FacilityIdentity | collect_osm_data.py:112-119 | the record keeps the element's id and type, and its id is `osm_<type>_<id>` |
| CollectOsmData.NameFallback | collect_osm_data.py:122 | name is `name`, else `name:nl`, else `ref`, else `Unnamed`, in that precedence |
| CollectOsmData.WayShape | collect_osm_data.py:132-153 | a way is a Polygon iff more than two node ids resolve and the first position equals the last; otherwise, with some resolved node, a LineString of all of them; unresolved ids are dropped; only a Polygon gets an area (lines 214-218) |
| CollectOsmData.NodePoint | collect_osm_data.py:125-131 | a node becomes a Point at `[lon, lat]` whose latitude and longitude are the record's |
| CollectOsmData.WayCentroidWithin | collect_osm_data.py:155-160 | a way's latitude and longitude each lie between the least and greatest of its resolved coordinates |
| CollectOsmData.CapacityMapping | collect_osm_data.py:162-169 | `capacity` is non-empty iff `capacity:hgv` or `capacity` is tagged, and holds exactly `truck_spots` and `total_spots` copied from them |
| CollectOsmData.AmenityMapping | collect_osm_data.py:180-188 | `amenities` holds exactly the tagged ones of the ten listed keys, with their tag values |
| CollectOsmData.FacilityConfidence | collect_osm_data.py:220-222 | every record carries the completeness score of its own fields, in [50, 100] |
| CollectOsmData.CollectedWell | collect_osm_data.py:98-225 | after the pass, `processed_ids` is exactly the set of emitted ids, no id is emitted twice, and every emitted element has tags |
| CollectOsmData.CollectedProcessed | collect_osm_data.py:98-225 | an id is processed iff some element with that id has non-empty tags |
| CollectOsmData.CollectedOrigin | collect_osm_data.py:100-110 | every emitted element is the first tagged element with its id |
| CollectOsmData.CollectOsmTruckParking | collect_osm_data.py:86-225 | the two passes give one record per emitted element, in order, with no OSM id twice; an id appears iff a tagged element has it; each record is built from the first tagged element with its id |
| CollectOsmData.CollectedDistinct | collect_osm_data.py:103-225 | no two records of the pass share an OSM id |
| CollectOsmData.CollectedIds | collect_osm_data.py:100-224 | a record with OSM id x exists iff some element with id x has tags |
| CollectOsmData.CollectedRecords | collect_osm_data.py:100-224 | every record is the record of the first tagged element with its id |
| Osm.NodeIndexSound | collect_osm_data.py:89-95 | an id is in the node lookup iff some node has it, and its position is that of such a node |
| Osm.Coordinates | collect_osm_data.py:128 | a GeoJSON position lists longitude, then latitude (section 3.1.1 of RFC 7946) |
| EnrichData.TruckParkingIff | enrich_data.py:111-115 | a facility is classified as truck parking iff its lower-cased `hgv` tag is `yes` or `designated` |
| EnrichData.RestServiceExclusive | enrich_data.py:117-124 | rest area iff the lower-cased `highway` tag is `rest_area`, service area iff it is `services`, never both |
| EnrichData.ConfidenceBounds | enrich_data.py:108-131 | the bonuses never lower the confidence and cap it at 1.0; a starting confidence above 1.0 is kept, or lowered to 1.0 |
| EnrichData.KeepIff | enrich_data.py:135-146 | a facility is kept iff it is truck parking, a rest or service area, has any non-empty `hgv` tag, or has a truthy `truck_spots` |
| EnrichData.TruckParkingKept | enrich_data.py:138-139 | every truck-parking facility is kept |
| EnrichData.ClassifyFacility | enrich_data.py:103-131 | the classification built step by step equals the classification function of the tags and the starting confidence |
| EnrichData.KeepFacility | enrich_data.py:136-145 | the keep flag equals the keep predicate |
| EnrichData.ClassifyAt | enrich_data.py:102-147 | writes the classification into exactly one facility of the array, leaves the others unchanged, and reports whether it is kept |
| EnrichData.FilterAndClassifyFacilities | enrich_data.py:94-152 | every input facility gets its classification in place, and the result is the kept classified facilities, in input order |
| EnrichData.ClassifiedBy | enrich_data.py:104-133 | storing the computed classification gives the classified facility |
| EnrichData.ClassifiedMembership | enrich_data.py:102-148 | a facility is in the result iff it is the classified form of an input facility and is kept |
| EnrichData.Map | enrich_data.py:102-133 | the classified list has one entry per facility, position by position |
| EnrichData.KeptAreClassified | enrich_data.py:133-148 | every kept facility carries a classification |
| EnrichData.SearchFrom | enrich_data.py:183-185 | `re.search(r'[AN]\d+', ...)`: no match iff no `A`/`N` is followed by a digit; otherwise the leftmost such letter with its whole digit run |
| EnrichData.FirstRoadRef | enrich_data.py:183-185 | the leftmost match of `[AN]\d+` in the whole string, or none |
| EnrichData.RoadRefShape | enrich_data.py:183 | a match is `A` or `N` followed by at least one digit and nothing else |
| EnrichData.HighwayBucketCases | enrich_data.py:179-186 | a highway with a road number is counted under the number, any other under its full text |
| EnrichData.UnknownHasNoRoad | enrich_data.py:180 | the `Unknown` default contains no road number, so the `!= 'Unknown'` guard changes nothing |
| EnrichData.HighwayKeyCases | enrich_data.py:179-186 | a missing highway counts as `Unknown`; otherwise as its road number if it has one, else as itself |
| EnrichData.TypeKeyPrecedence | enrich_data.py:189-197 | every facility counts under one of the four types, rest area before service area before truck parking before `Other` |
| EnrichData.TotalTruckCapacitySnoc | enrich_data.py:199-208 | the truck capacity is summed facility by facility |
| EnrichData.TruckCapacityOnlyFromParsed | enrich_data.py:200-208 | with no facility holding a `truck_spots` that parses as an integer, the total truck capacity is 0 |
| EnrichData.AnalysisMeaning | enrich_data.py:154-226 | each statistic is the tally or count of its own key or predicate over the facilities |
| EnrichData.AnalysisTallies | enrich_data.py:173-197 | the province, highway and type counters are the tallies of their keys |
| EnrichData.AnalysisCapacity | enrich_data.py:200-201 | `with_capacity` counts the facilities with a non-empty capacity |
| EnrichData.AnalysisAmenities | enrich_data.py:211-212 | `with_amenities` counts the facilities with non-empty amenities |
| EnrichData.AnalysisElectricity | enrich_data.py:215-216 | `with_electricity` counts the facilities with non-empty electricity data |
| EnrichData.AnalysisPolygons | enrich_data.py:219-220 | `with_polygons` counts the facilities whose geometry is a Polygon |
| EnrichData.AnalysisHighConfidence | enrich_data.py:223-224 | `high_confidence` counts the facilities scoring at least 0.7 |
| EnrichData.AnalysisTruckCapacity | enrich_data.py:202-208 | `total_truck_capacity` sums the parsed `truck_spots` of the facilities with a capacity |
| EnrichData.AnalyzeFacilities | enrich_data.py:154-226 | the loop computes the statistics: total, the three tallies, the capacity, high-confidence and other counts |
| EnrichData.KeysSnoc | enrich_data.py:173 | the key sequence grows by one facility at a time |
| EnrichData.BucketsPartition | enrich_data.py:173-197 | each facility is counted exactly once by province, by highway and by type |
| EnrichData.TypeBuckets | enrich_data.py:191-197 | the type counter has no key besides the four types |
| ExtractAllOsmParking.VehicleTypeName | extract_all_osm_parking.py:127-140 | a vehicle type is written as `truck`, `lzv` or `car` |
| ExtractAllOsmParking.ClassifyParkingFromOsm | extract_all_osm_parking.py:77-152 | the label and colour belong to the chosen vehicle type; the three capacities are the tags read with `int()`, 0 when missing or unparsable; `is_hgv` is the HGV signal |
| ExtractAllOsmParking.VehicleTypeIff | extract_all_osm_parking.py:118-142 | LZV iff (HGV signal or HGV capacity above 0) and an LZV signal; car iff neither HGV clue and a car capacity above 0; truck otherwise, including the default |
| ExtractAllOsmParking.CapacityParsing | extract_all_osm_parking.py:98-115 | a capacity is 0 when the tag is missing or not an integer, and the parsed value otherwise |
| ExtractAllOsmParking.HgvCapacityFallback | extract_all_osm_parking.py:99-110 | `capacity:hgv` wins even when it does not parse; without it `capacity:truck` is read; without both the HGV capacity is 0 |
| ExtractAllOsmParking.LabelsDistinct | extract_all_osm_parking.py:126-142 | the three vehicle types have distinct labels, colours and names |
| ExtractAllOsmParking.Ring | extract_all_osm_parking.py:202-213 | only a way gets a polygon, and only when at least three of its node ids resolve; the ring is those resolved positions |
| ExtractAllOsmParking.Areas | extract_all_osm_parking.py:185-215 | one parking area per `amenity=parking` element |
| ExtractAllOsmParking.Spaces | extract_all_osm_parking.py:229-251 | one parking-space record per `amenity=parking_space` element |
| ExtractAllOsmParking.AnyParkingIff | extract_all_osm_parking.py:186-230 | `has_osm_data` holds iff some element is a parking area or a parking space |
| ExtractAllOsmParking.TypeCapacityUnion | extract_all_osm_parking.py:218-226 | capacity counted over two disjoint sets of vehicle types adds up |
| ExtractAllOsmParking.TypeCapacityAll | extract_all_osm_parking.py:218-226 | the capacity of all three vehicle types is the total capacity |
| ExtractAllOsmParking.CapacityTotals | extract_all_osm_parking.py:218-226 | truck capacity is truck plus LZV capacity, and truck plus car capacity is the total |
| ExtractAllOsmParking.AreasAndSpaces | extract_all_osm_parking.py:185-229 | no element is both an area and a space, so there are at most as many of them as elements |
| ExtractAllOsmParking.AreaOrigin | extract_all_osm_parking.py:185-215 | every parking area comes from a parking element of the response |
| ExtractAllOsmParking.AreasSnoc | extract_all_osm_parking.py:181-251 | one more element adds at most its own area or space |
| ExtractAllOsmParking.CapacitySnoc | extract_all_osm_parking.py:218-226 | one more element adds its capacity to the total and to the counters of its type |
| ExtractAllOsmParking.BuildArea | extract_all_osm_parking.py:189-213 | builds the parking-area record with its defaults and geometry |
| ExtractAllOsmParking.AddCapacity | extract_all_osm_parking.py:218-226 | adds a capacity to the total, to truck for trucks and LZVs, to LZV for LZVs and to car for cars |
| ExtractAllOsmParking.ElementRing | extract_all_osm_parking.py:202-213 | the coordinate loop computes the ring |
| ExtractAllOsmParking.VisitElement | extract_all_osm_parking.py:181-251 | one loop step: the new lists and counters are the old ones plus this element's contribution |
| ExtractAllOsmParking.ExtractParkingFromOsm | extract_all_osm_parking.py:154-253 | the areas and spaces in order, the capacity totals by type (truck counting LZV), truck plus car equal to the total, and `has_osm_data` iff some parking element exists |
| ExtractAllOsmParking.AreaFeatures | extract_all_osm_parking.py:388-418 | one feature per area that has a geometry |
| ExtractAllOsmParking.SpaceFeatures | extract_all_osm_parking.py:421-437 | one feature per space that has a geometry |
| ExtractAllOsmParking.OverlayCount | extract_all_osm_parking.py:383-437 | the overlay has as many features as the facilities with OSM data have areas and spaces with a geometry |
| ExtractAllOsmParking.AreaFeatureOrigin | extract_all_osm_parking.py:388-418 | every area feature is drawn from an area with that geometry and carries its properties |
| ExtractAllOsmParking.SpaceFeatureOrigin | extract_all_osm_parking.py:421-437 | every space feature is drawn from a space with that geometry and carries its properties |
| ExtractAllOsmParking.OverlayOrigin | extract_all_osm_parking.py:383-437 | every overlay feature belongs to a facility that has OSM data |
| ExtractAllOsmParking.AppendAreaFeatures | extract_all_osm_parking.py:388-418 | the inner area loop appends exactly the area features |
| ExtractAllOsmParking.AppendSpaceFeatures | extract_all_osm_parking.py:421-437 | the inner space loop appends exactly the space features |
| ExtractAllOsmParking.AppendFacilityFeatures | extract_all_osm_parking.py:384-437 | one outer step appends the facility's features, or nothing without OSM data |
| ExtractAllOsmParking.CreateComprehensiveGeojson | extract_all_osm_parking.py:374-437 | the loops build the overlay feature list, of the counted length |
| OsmParkingExtractor.Capacity | osm_parking_extractor.py:95-99 | `capacity` wins, else `capacity:hgv`, each read with `int()` and 0 when unparsable; 0 when neither is tagged |
| OsmParkingExtractor.AreaGeometry | osm_parking_extractor.py:113-124 | every way gets a Polygon of its resolved positions, however few; other element types get none |
| OsmParkingExtractor.SpaceGeometry | osm_parking_extractor.py:139-154 | a node space is a Point at `[lon, lat]`, a way space a Polygon of its resolved positions, anything else has no geometry |
| OsmParkingExtractor.AreaDefaults | osm_parking_extractor.py:101-111 | `capacity_hgv` falls back from `capacity:hgv` to `capacity:truck` to `N/A`; the name defaults to `Unnamed`, the operator to `Unknown` |
| OsmParkingExtractor.Areas | osm_parking_extractor.py:94-126 | one parking area per `amenity=parking` element |
| OsmParkingExtractor.Spaces | osm_parking_extractor.py:133-156 | one parking space per `amenity=parking_space` element |
| OsmParkingExtractor.Aisles | osm_parking_extractor.py:159-163 | one aisle per other element tagged `service=parking_aisle` |
| OsmParkingExtractor.CapacitySumAppend | osm_parking_extractor.py:127 | the summed area capacity grows by one area at a time |
| OsmParkingExtractor.TotalIsAreaSum | osm_parking_extractor.py:126-127 | `total_capacity` is the sum of the capacities of the listed areas |
| OsmParkingExtractor.HgvWithinTotal | osm_parking_extractor.py:127-130 | with non-negative capacities, the HGV capacity never exceeds the total |
| OsmParkingExtractor.ListsDisjoint | osm_parking_extractor.py:94-159 | an element lands in at most one of the three lists |
| OsmParkingExtractor.StatsSnoc | osm_parking_extractor.py:90-163 | one more element contributes its own entry and capacity only |
| OsmParkingExtractor.BuildWayPolygon | osm_parking_extractor.py:114-124 | the coordinate loop builds the way's polygon |
| OsmParkingExtractor.VisitElement | osm_parking_extractor.py:90-163 | one loop step: the new lists and counters are the old ones plus this element's contribution |
| OsmParkingExtractor.ExtractParkingInfo | osm_parking_extractor.py:70-165 | areas, spaces and aisles in order; the total capacity is the sum over the areas; the HGV capacity is the sum over HGV-designated or truck-named areas |
| OsmParkingExtractor.AreaFeatures | osm_parking_extractor.py:172-187 | one feature per area with a geometry |
| OsmParkingExtractor.SpaceFeatures | osm_parking_extractor.py:190-199 | one feature per space with a geometry |
| OsmParkingExtractor.AreaFeatureOrigin | osm_parking_extractor.py:172-187 | every area feature is the feature of an area with that geometry |
| OsmParkingExtractor.WayAreasDrawn | osm_parking_extractor.py:113-187 | exactly the areas mapped from ways are drawn |
| OsmParkingExtractor.AppendAreaFeatures | osm_parking_extractor.py:172-187 | the area loop appends exactly the area features |
| OsmParkingExtractor.AppendSpaceFeatures | osm_parking_extractor.py:190-199 | the space loop appends exactly the space features |
| OsmParkingExtractor.CreateParkingGeojson | osm_parking_extractor.py:167-199 | the features are the area features followed by the space features |
| ExtractSouthHollandParking.RelationsSkipped | extract_south_holland_parking.py:112-143 | a relation or other element has no coordinates, so it never yields a feature |
| ExtractSouthHollandParking.WayCentre | extract_south_holland_parking.py:130-140 | a way with no resolved node yields nothing; otherwise its point is the mean longitude and mean latitude of its resolved nodes, inside their range |
| ExtractSouthHollandParking.ZeroSkipped | extract_south_holland_parking.py:142-143 | `not lat or not lon` also drops a latitude or longitude of exactly 0.0 |
| ExtractSouthHollandParking.FeatureShape | extract_south_holland_parking.py:146-171 | a Point at `[lon, lat]` carrying the element's id; the name defaults to `Parking <id>`; `capacity_hgv` falls back to `capacity:truck` |
| ExtractSouthHollandParking.ExtractedWell | extract_south_holland_parking.py:106-174 | `processed_ids` is exactly the set of emitted ids, and no id is emitted twice |
| ExtractSouthHollandParking.ExtractedProcessed | extract_south_holland_parking.py:108-174 | an id is processed iff some element with it is parking-related and placed |
| ExtractSouthHollandParking.ExtractedOrigin | extract_south_holland_parking.py:108-174 | every feature is the feature of the first eligible element with its id |
| ExtractSouthHollandParking.WayPosition | extract_south_holland_parking.py:130-140 | the node loop computes the way's centre |
| ExtractSouthHollandParking.ExtractParkingFeatures | extract_south_holland_parking.py:92-176 | the features of the first eligible element of each id, in order, with no id twice |
| ExtractSouthHollandParking.ExtractedIds | extract_south_holland_parking.py:108-174 | a feature with id x exists iff some element with id x is eligible |
| ExtractSouthHollandParking.TypeKeys | extract_south_holland_parking.py:214-216 | one type key per feature |
| ExtractSouthHollandParking.TypeKeysSnoc | extract_south_holland_parking.py:214-217 | counting one more feature adds one to its type |
| ExtractSouthHollandParking.CountByType | extract_south_holland_parking.py:213-217 | `by_type` is the tally of the type keys, and its counts add up to the number of features |
| ExtractSouthHollandParking.Summarise | extract_south_holland_parking.py:210-225 | the totals: the by-type tally summing to the total, and the counts with capacity and with HGV capacity, each at most the total |
| ExtractSouthHollandParking.HgvCapacitySource | extract_south_holland_parking.py:160-225 | a feature counts as having HGV capacity iff `capacity:hgv` is non-empty, or, without it, `capacity:truck` is |
| ExtractSouthHollandParking.TypeKeysPresent | extract_south_holland_parking.py:118-216 | every emitted feature has a `highway` or `amenity` to count it under, so `None` is never a type |
| ClassifyParkingByVehicleType.CandidateIff | classify_parking_by_vehicle_type.py:92-105 | a standard is a candidate iff at least two of width, length and area fit, and its rounded confidence is then 0.66, 0.67 or 1.0 |
| ClassifyParkingByVehicleType.Candidates | classify_parking_by_vehicle_type.py:86-111 | the candidates are standards of the table with their own confidence above 0.5 |
| ClassifyParkingByVehicleType.CandidatesComplete | classify_parking_by_vehicle_type.py:86-111 | every standard scoring above 0.5 is a candidate |
| ClassifyParkingByVehicleType.Insert | classify_parking_by_vehicle_type.py:114 | inserting a match keeps all entries and adds it once |
| ClassifyParkingByVehicleType.SortByConfidence | classify_parking_by_vehicle_type.py:114 | the sort is a permutation of the matches |
| ClassifyParkingByVehicleType.InsertDescending | classify_parking_by_vehicle_type.py:114 | inserting into a descending list keeps it descending |
| ClassifyParkingByVehicleType.SortDescending | classify_parking_by_vehicle_type.py:114 | the matches end up by descending confidence |
| ClassifyParkingByVehicleType.FirstBest | classify_parking_by_vehicle_type.py:114-117 | the first match of highest confidence, in table order |
| ClassifyParkingByVehicleType.SortHead | classify_parking_by_vehicle_type.py:114-117 | the stable descending sort puts the first best match first |
| ClassifyParkingByVehicleType.FloorMonotone | classify_parking_by_vehicle_type.py:155-164 | `int()` of a non-negative quotient is monotone |
| ClassifyParkingByVehicleType.EstimatesOrdered | classify_parking_by_vehicle_type.py:141-166 | each estimate is the number of whole 15, 20, 35 or 5 m slots in the length, so LZVs ≤ heavy trucks ≤ standard trucks ≤ cars |
| ClassifyParkingByVehicleType.BestMatchMeaning | classify_parking_by_vehicle_type.py:113-117 | there is no best match iff there are no candidates; otherwise it is the first best |
| ClassifyParkingByVehicleType.Classify | classify_parking_by_vehicle_type.py:116-139 | a zone is a parking row exactly when it carries a row estimate |
| ClassifyParkingByVehicleType.ClassifySymmetric | classify_parking_by_vehicle_type.py:82 | swapping width and length gives the same classification |
| ClassifyParkingByVehicleType.ClassifyUnknown | classify_parking_by_vehicle_type.py:130-139 | `unknown` iff no candidate, and then confidence 0, no row and 0 vehicles |
| ClassifyParkingByVehicleType.ClassifyMatched | classify_parking_by_vehicle_type.py:116-129 | with candidates: the first best standard, its confidence, label and colour; a row iff the longer side exceeds 40 m, with the row estimate, else one vehicle |
| ClassifyParkingByVehicleType.FirstBestIsHighest | classify_parking_by_vehicle_type.py:92-117 | the best match scores at least every standard that fits and comes first among its equals |
| ClassifyParkingByVehicleType.ScoreStandard | classify_parking_by_vehicle_type.py:87-103 | the summed 0.33/0.33/0.34 confidence, rounded to two decimals |
| ClassifyParkingByVehicleType.CollectMatches | classify_parking_by_vehicle_type.py:84-111 | the loop over the table collects exactly the candidates |
| ClassifyParkingByVehicleType.ClassifyParkingSpace | classify_parking_by_vehicle_type.py:69-139 | the method computes the classification function |
| ClassifyParkingByVehicleType.TalliedAppend | classify_parking_by_vehicle_type.py:205-246 | tallying two runs of zones is tallying the first, then the second |
| ClassifyParkingByVehicleType.ClassifyAll | classify_parking_by_vehicle_type.py:216-226 | one classified space per detected space |
| ClassifyParkingByVehicleType.EnhancedSnoc | classify_parking_by_vehicle_type.py:205-260 | a facility with `parking_spaces` adds its classified spaces; one without is skipped |
| ClassifyParkingByVehicleType.EnhancedCoversSpaces | classify_parking_by_vehicle_type.py:205-226 | the classified spaces are the detected spaces, one each, in order |
| ClassifyParkingByVehicleType.CountSumBump | classify_parking_by_vehicle_type.py:230 | bumping one type's count raises the sum over distinct types by one if the type is among them |
| ClassifyParkingByVehicleType.CountSumZero | classify_parking_by_vehicle_type.py:186-194 | the seven counters start at zero |
| ClassifyParkingByVehicleType.AllTypesCover | classify_parking_by_vehicle_type.py:186-194 | `type_stats` has one entry for every zone type, each once |
| ClassifyParkingByVehicleType.TalliedCount | classify_parking_by_vehicle_type.py:229-232 | every zone is counted under exactly one type |
| ClassifyParkingByVehicleType.SingleTruckAddsOne | classify_parking_by_vehicle_type.py:239-242 | a single standard or heavy truck zone adds one standard truck and nothing else, in the source's update and in the corrected one alike |
| ClassifyParkingByVehicleType.RecordSpace | classify_parking_by_vehicle_type.py:229-246 | one zone's statistics update as the source makes it: a row re-estimated from the raw `width_m` and `length_m`, a single-vehicle zone counted by its type |
| ClassifyParkingByVehicleType.ClassifyAllSnoc | classify_parking_by_vehicle_type.py:216-226 | the classified list grows by one space at a time |
| ClassifyParkingByVehicleType.TallyFacility | classify_parking_by_vehicle_type.py:214-246 | the inner loop classifies every space and tallies them in order with the source's update |
| ClassifyParkingByVehicleType.AnalyzeMaasvlakteData | classify_parking_by_vehicle_type.py:168-260 | the enhanced results and the source's tallies of all classified zones; the type counts add up to the number of detected spaces |
| ClassifyParkingByVehicleType.RawDimensionsCounterexample | classify_parking_by_vehicle_type.py:235-238 | a 50 m by 4 m row of 200 m², estimated at 3 standard trucks, adds no vehicle when given width first |
| ClassifyParkingByVehicleType.LongZoneIsRow | classify_parking_by_vehicle_type.py:60-124 | that zone fits the parking-row standard and is a row estimated from its 50 m side |
| ClassifyParkingByVehicleType.FiftyAndFour | classify_parking_by_vehicle_type.py:141-166 | a 50 m row holds 3, 2, 1 and 10 vehicles; a 4 m one none |
| ClassifyParkingByVehicleType.CorrectedTally | classify_parking_by_vehicle_type.py:235-253 | the corrected update adds what the source's update adds for the zone given shorter side first, so it does not depend on the order of the dimensions |
| ClassifyParkingByVehicleType.TalliedStatsAgree | classify_parking_by_vehicle_type.py:229-232 | the source's tally and the corrected tally have the same per-type counts, areas and space lists |
| ClassifyParkingByVehicleType.RecordAgreesWhenOrdered | classify_parking_by_vehicle_type.py:234-246 | for a zone given shorter side first, the source's update and the corrected one agree |
| ClassifyParkingByVehicleType.TalliedAgreeWhenOrdered | classify_parking_by_vehicle_type.py:214-246 | when every zone is given shorter side first, the source's tally and the corrected tally are equal |
| ClassifyParkingByVehicleType.TalliesDiffer | classify_parking_by_vehicle_type.py:234-238 | one 50 m by 4 m row given width first makes the source's tally 0 vehicles and the corrected tally 3, 2, 1 and 10 |
| EstimateMaasvlaktePilot.MaasvlakteClosed | estimate_maasvlakte_pilot.py:246-249 | the Maasvlakte box of `MAASVLAKTE_BOUNDS` is closed: its corners belong to it, points just beyond an edge do not |
| EstimateMaasvlaktePilot.ClassifyFacilityVehicleType | estimate_maasvlakte_pilot.py:251-282 | every branch, the default included, answers `truck` |
| EstimateMaasvlaktePilot.SelectFacilities | estimate_maasvlakte_pilot.py:294-304 | the facilities in the box with parking areas and no parking spaces, in order, and only those |
| EstimateMaasvlaktePilot.SpaceArea | estimate_maasvlakte_pilot.py:336 | the space area is the space width times its length: 60 m² for trucks, 12.5 m² otherwise |
| EstimateMaasvlaktePilot.AreaCapacity | estimate_maasvlakte_pilot.py:331-339 | the area's own capacity, else an equal share of the facility's, else 50 % of the area over the space size; never above 200, and 0 with nothing to go on |
| EstimateMaasvlaktePilot.ShareFallsThrough | estimate_maasvlakte_pilot.py:332-337 | a facility capacity smaller than its number of areas floors to a share of 0, so the area estimate is used |
| EstimateMaasvlaktePilot.RowCells | estimate_maasvlakte_pilot.py:189 | the columns of one grid row, in order |
| EstimateMaasvlaktePilot.Rectangle | estimate_maasvlakte_pilot.py:201-207 | a closed ring of five corners |
| EstimateMaasvlaktePilot.ScanAppend | estimate_maasvlakte_pilot.py:188-242 | scanning two runs of cells is scanning the first, then the second |
| EstimateMaasvlaktePilot.ScanStopped | estimate_maasvlakte_pilot.py:190-242 | once the space number passes the maximum, no further cell changes anything |
| EstimateMaasvlaktePilot.RowCellsPrefix | estimate_maasvlakte_pilot.py:189 | the first columns of a row are a prefix of the row |
| EstimateMaasvlaktePilot.CellsPrefix | estimate_maasvlakte_pilot.py:188-189 | the first rows of the grid are a prefix of the grid |
| EstimateMaasvlaktePilot.PrefixStopped | estimate_maasvlakte_pilot.py:190-242 | stopping early gives the same spaces as scanning on |
| EstimateMaasvlaktePilot.ScannedPrefix | estimate_maasvlakte_pilot.py:188-189 | the cells visited so far are a prefix of the grid |
| EstimateMaasvlaktePilot.StoppedEarly | estimate_maasvlakte_pilot.py:190-242 | both `break`s leave the result the full scan would give |
| EstimateMaasvlaktePilot.ScanSnoc | estimate_maasvlakte_pilot.py:189-239 | one more column is one more scan step |
| EstimateMaasvlaktePilot.InsideCells | estimate_maasvlakte_pilot.py:219-222 | the cells whose centre lies in the polygon are among the grid cells |
| EstimateMaasvlaktePilot.ScanMeaning | estimate_maasvlakte_pilot.py:186-239 | the spaces are the first `max_spaces` cells whose centre lies in the polygon, numbered from 1 |
| EstimateMaasvlaktePilot.ScanSound | estimate_maasvlakte_pilot.py:188-239 | at most `max_spaces` spaces, numbered 1, 2, …, each centred in the polygon, with the angle and dimensions of the grid |
| EstimateMaasvlaktePilot.InsideCellsInside | estimate_maasvlakte_pilot.py:219-222 | every kept cell's centre lies in the polygon |
| EstimateMaasvlaktePilot.GridCount | estimate_maasvlakte_pilot.py:178-179 | the grid has at least one row and one column |
| EstimateMaasvlaktePilot.MaxSpaces | estimate_maasvlakte_pilot.py:182-183 | the capacity when positive, else rows times columns, capped at 200 |
| EstimateMaasvlaktePilot.GridFacts | estimate_maasvlakte_pilot.py:150-183 | the grid's maximum lies in [1, 200] and within a positive capacity; its spaces have the vehicle type's dimensions |
| EstimateMaasvlaktePilot.ScanSoundFor | estimate_maasvlakte_pilot.py:186-242 | the scanned spaces of such a grid keep its bounds and dimensions |
| EstimateMaasvlaktePilot.EstimateSound | estimate_maasvlakte_pilot.py:140-244 | at most 200 spaces, at most a positive capacity, numbered from 1, centred in the polygon, with the vehicle type's dimensions |
| EstimateMaasvlaktePilot.ScanGrid | estimate_maasvlakte_pilot.py:185-244 | the nested loops with their `break`s compute the scan |
| EstimateMaasvlaktePilot.EstimateSpacesInPolygon | estimate_maasvlakte_pilot.py:140-244 | the estimated spaces are the grid scan, with the bounds above |
| GenerateOutputs.GeometryOf | generate_outputs.py:23-32 | a stored geometry is used as is; without one, a Point is made iff latitude and longitude are both truthy, at that longitude and latitude |
| GenerateOutputs.FallbackPointOrder | generate_outputs.py:24-29 | the fallback Point lists longitude first (section 3.1.1 of RFC 7946) |
| GenerateOutputs.SkippedIff | generate_outputs.py:24-32 | a facility is skipped iff it has no geometry and lacks a truthy latitude or longitude |
| GenerateOutputs.AmenityPropsOf | generate_outputs.py:68-72 | each amenity flag holds iff that amenity is exactly `yes` |
| GenerateOutputs.IfTruthy | generate_outputs.py:83-90 | an optional property is set iff the value is truthy, and then to that value |
| GenerateOutputs.PropertiesOf | generate_outputs.py:35-72 | the defaults `Unnamed`, 0 and `OpenStreetMap`; the location, capacity, classification and amenity blocks are each present iff their source field is non-empty |
| GenerateOutputs.PropertiesOptional | generate_outputs.py:74-90 | `has_charging` is present iff electricity information exists and is then `True`; area, operator, opening hours and HGV are each present iff truthy |
| GenerateOutputs.Features | generate_outputs.py:21-98 | at most one feature per facility |
| GenerateOutputs.FeaturesFiltered | generate_outputs.py:21-98 | the features are those of the mappable facilities, one each, in order |
| GenerateOutputs.GenerateGeoJson | generate_outputs.py:15-110 | the collection holds the facility features, with `count` their number and `source` OpenStreetMap |
| GenerateOutputs.CsvRow | generate_outputs.py:139-181 | the classification flags default to `False`; `has_charging` is whether electricity data is present |
| GenerateOutputs.RowMatchesFieldnames | generate_outputs.py:125-181 | every row has exactly the columns of `fieldnames` |
| GenerateOutputs.ExportsAgree | generate_outputs.py:62-181 | the CSV and GeoJSON exports agree on fuel, wifi, truck parking and charging |
| GenerateOutputs.CsvLine | generate_outputs.py:136-183 | a row is written in `fieldnames` order |
| GenerateOutputs.GenerateCsv | generate_outputs.py:119-185 | the header is `fieldnames` and there is one line per facility, in order |
| GenerateOutputs.StatisticsOf | generate_outputs.py:198-205 | every count is at most the total |
| GenerateOutputs.PolygonsAreMapped | generate_outputs.py:31-201 | every polygon facility is also a GeoJSON feature |
| GenerateOutputs.RecordOf | generate_outputs.py:211-230 | `geometry_type` iff a geometry exists, and then its type; `area_m2` iff truthy; coordinates and confidence copied |
| GenerateOutputs.GenerateJsonSummary | generate_outputs.py:187-232 | one record per facility, in order, with the statistics and `total_facilities` equal to their number |
| GenerateReport.Entries | generate_report.py:22-36 | the thirteen metrics in their dictionary order, starting with `total_facilities` |
| GenerateReport.QualityOf | generate_report.py:20-36 | `total_facilities` is the number of facilities, every other count is at most it, and `with_truck_capacity` is at most `with_capacity` |
| GenerateReport.Percent | generate_report.py:39-43 | `value / total * 100`, and 0 when the total is 0 |
| GenerateReport.PercentRange | generate_report.py:39-43 | a count of at most the total gives a percentage in [0, 100] |
| GenerateReport.Percentages | generate_report.py:40-43 | one percentage per metric, under the same key, of that metric over the total |
| GenerateReport.PercentagesRange | generate_report.py:39-43 | every percentage lies in [0, 100], and all are 0 for no facilities |
| GenerateReport.IdentifyGaps | generate_report.py:47-85 | the loop computes the five gap lists |
| GenerateReport.GapsAreSelections | generate_report.py:57-83 | `missing_capacity` lists exactly the facilities with no capacity and `incomplete_amenities` the designated truck parkings with no amenities, each as its id and name, in order |
| GenerateReport.GapsComplementQuality | generate_report.py:27-83 | missing capacity, location and polygon complement the matching quality counts; low and high confidence never overlap; incomplete amenities are among the designated truck parkings |
| GenerateReport.Rank | generate_report.py:91-160 | each recommendation category has its own position in the fixed order |
| GenerateReport.RankOfCategoryAt | generate_report.py:91-160 | positions and categories correspond one to one |
| GenerateReport.Expected | generate_report.py:94-159 | the recommendation built for a category carries that category |
| GenerateReport.Step | generate_report.py:92-159 | each check appends at most one recommendation |
| GenerateReport.Plan | generate_report.py:89-161 | the first k checks append at most k recommendations |
| GenerateReport.PlanUnrolled | generate_report.py:89-161 | the recommendations are the seven checks in source order |
| GenerateReport.PlanMembers | generate_report.py:89-161 | a category is recommended iff its condition holds, and each recommendation is the one built for its category |
| GenerateReport.PlanOrdered | generate_report.py:89-161 | the recommendations keep the fixed category order, each category once |
| GenerateReport.PercentAbove | generate_report.py:92-115 | a percentage above a threshold is the integer comparison `part * 100 > threshold * total` |
| GenerateReport.GenerateRecommendations | generate_report.py:87-161 | the recommendations, in order, are those whose condition holds: the three fixed ones always, so between 3 and 7 |
| GenerateReport.PlanGrows | generate_report.py:89-161 | each check adds one recommendation iff its condition holds |
| GenerateReport.PlanSize | generate_report.py:124-150 | with facilities, between 3 and 7 recommendations |
| GenerateReport.PlanFacts | generate_report.py:89-161 | the plan holds a category iff its condition holds, each as built, in the fixed order |
| AnalyzeData.SpaceCount | scripts/analyze_data.py:62-81 | a value counts iff `isinstance(spaces, int)` holds, so for an integer or a boolean; an integer counts as itself |
| AnalyzeData.BoolCountsAsInt | scripts/analyze_data.py:63-79 | `True` counts as one space and `False` as none |
| Counters.KeysOf | scripts/analyze_data.py:48-58 | the key each facility is counted under, position by position |
| AnalyzeData.Average | scripts/analyze_data.py:83-88 | the average times the number of facilities with data is the confirmed total; 0 with no data |
| AnalyzeData.CountMotorway | scripts/analyze_data.py:47-65 | the motorway loop tallies motorway, province and confidence for every facility, operator only when specified, and sums the counted spaces |
| AnalyzeData.CountPrivate | scripts/analyze_data.py:68-81 | the private loop continues the province, operator and confidence tallies and the space sums |
| AnalyzeData.MotorwayCounters | scripts/analyze_data.py:47-59 | the counters after the motorway loop are the tallies of its keys |
| AnalyzeData.CountersContinue | scripts/analyze_data.py:47-76 | continuing the motorway counters over the private facilities gives the tallies of the combined key lists |
| AnalyzeData.AnalyzeFacilities | scripts/analyze_data.py:24-90 | the totals and list lengths, the four tallies over the combined keys, the confirmed spaces, the facilities with data and their average |
| AnalyzeData.CountersPartition | scripts/analyze_data.py:31-76 | the motorway counts add up to the motorway facilities, the province and confidence counts to all facilities |
| AnalyzeData.OperatorTotal | scripts/analyze_data.py:54-73 | the operator counts add up to all facilities except the motorway ones whose operator is `Not specified` |
| AnalyzeData.MotorwayOperatorsSpecified | scripts/analyze_data.py:55 | no motorway facility is counted under `Not specified` |
| AnalyzeData.NotSpecifiedOnlyPrivate | scripts/analyze_data.py:55-73 | the `Not specified` operator count exists iff some private facility has that operator |
| AnalyzeData.WithDataBounded | scripts/analyze_data.py:62-81 | at most every facility has space data |
| AnalyzeData.ConfirmedSpacesNonNegative | scripts/analyze_data.py:62-81 | non-negative counted values give a non-negative confirmed total |
| FindRotterdamFacilities.BoxIsClosed | find_rotterdam_facilities.py:22 | the Rotterdam box is closed: its corners belong to it, points just beyond an edge do not |
| FindRotterdamFacilities.MaasvlakteInsideRotterdam | find_rotterdam_facilities.py:22 | every point of the Maasvlakte box lies in the Rotterdam box |
| FindRotterdamFacilities.RecordOf | find_rotterdam_facilities.py:23-34 | a record keeps the facility's coordinates, its municipality and highway (empty when missing) and its truck-parking flag |
| FindRotterdamFacilities.FindRotterdam | find_rotterdam_facilities.py:14-34 | the loop succeeds iff every facility in the box has a classification, and then yields the records of the facilities in the box, in order; otherwise it fails on `classification` |
| FindRotterdamFacilities.FoundAreSelected | find_rotterdam_facilities.py:14-34 | then the records are those of the facilities in the box, one each and in order, at most one per facility |
| FindRotterdamFacilities.FoundInBox | find_rotterdam_facilities.py:22-34 | every record's coordinates lie in the box |
| Osm.NodeIndexSnoc | collect_osm_data.py:90-95 | one more element adds its position under its id when it is a node, replacing an earlier one |
| Osm.BuildNodeIndex | collect_osm_data.py:87-95 | the first pass builds the node lookup, and every id in it is a node's |
| Osm.Resolve | collect_osm_data.py:137-141 | resolving node ids never yields more positions than ids |
| Osm.ResolveSnoc | collect_osm_data.py:138-141 | a resolved id adds its position, an unknown id adds nothing |
| Osm.ResolveSound | collect_osm_data.py:138-141 | every resolved position is the lookup's position of one of the way's ids |
| Osm.ResolveAll | collect_osm_data.py:138-141 | when every id is known, every id yields a position |
| Osm.ResolveWay | collect_osm_data.py:137-141 | the node loop computes the resolved positions |
| Osm.Lats | collect_osm_data.py:157 | the latitudes of the positions, in order |
| Osm.Lons | collect_osm_data.py:156 | the longitudes of the positions, in order |
| Osm.MeanWithin | collect_osm_data.py:155-158 | the mean of a non-empty list lies between its least and greatest elements |
| Records.Select | collect_osm_data.py:180-186 | the listed keys that are present, with their values |
| Records.SelectKeys | collect_osm_data.py:183-186 | the loop over the listed keys computes that selection |
| Counters.TallyTotal | enrich_data.py:173-176 | a counter that adds one per key holds as many counts as there are keys |
| Counters.TallyCounts | enrich_data.py:162-176 | a key has a count iff it occurs, and then its count is its number of occurrences |
| Common.FirstPresent | collect_osm_data.py:122 | nested `dict.get` defaults: the value of the first present key, else the default |
| Common.Lower | enrich_data.py:112-118 | `str.lower()` lowers each character in place |
| Common.StripLeft | extract_all_osm_parking.py:102-105 | `int()` ignores leading whitespace |
| Common.StripRight | extract_all_osm_parking.py:102-105 | `int()` ignores trailing whitespace |
| Common.NoSpaceStrips | extract_all_osm_parking.py:102-105 | a string without surrounding whitespace is read as it is |
| Common.NonNegativeRoundTrip | extract_all_osm_parking.py:102-105 | `int()` reads back any non-negative number written in decimal |
| Common.ParseNegative | extract_all_osm_parking.py:102-105 | a minus sign before well-formed digits gives the negated value |
| Common.NegativeRoundTrip | extract_all_osm_parking.py:102-105 | `int()` reads back any negative number written in decimal |
| Common.ParseIntToString | extract_all_osm_parking.py:102-105 | `int(str(n)) == n` for every integer |
| Common.IntToStringInjective | extract_south_holland_parking.py:155 | distinct ids give distinct default names |

## Left out

- Network access is left out: the Overpass queries with their retries and sleeps, the Nominatim reverse geocoding in enrich_data.py, and the NDW, PDOK and data.overheid probes. The models start from the decoded response.
- collect_rws_ndw_data.py, parking_detection.py, detect_parking_south_holland.py and analyze_maasvlakte.py are not part of this model. They are network probes, image processing with OpenCV, and drivers.
- The satellite image fetch and the orientation detection in estimate_maasvlakte_pilot.py are left out. The detected angle is a parameter.
- Trigonometric and floating-point geometry are parameters: the shoelace area scaled by a cosine, the metres-per-degree factors, shapely's `contains` and `affinity.rotate`.
- `datetime` timestamps are parameters: `last_updated` and `generated`.
- Printing, the Markdown report of generate_report.py, the text report of scripts/analyze_data.py, and every JSON and CSV file write are left out. The models build the records that would be written.
- The division by `total_facilities` in the text report of scripts/analyze_data.py is left out with that report.
- Floating-point confidences are integer hundredths, so a float sum such as 0.5 + 0.1 + … is exact here.
- CollectOsmData.ConfidenceScore: the `min(…, 1.0)` cap is shown never to bind on exact sums; float rounding of the sum is not modelled.
- ClassifyParkingByVehicleType.ScoreStandard: `round(confidence, 2)` is taken on exact hundredths; float rounding of 0.33 + 0.33 is not modelled.
- ClassifyParkingByVehicleType.SortByConfidence: Python's in-place stable `list.sort` is a stable insertion sort on values. The in-place update of `matches` is not modelled.
- AnalyzeData.AnalyzeFacilities: `average_per_facility` is the exact quotient, not rounded to one decimal by `round(…, 1)`.
- AnalyzeData.AnalyzeFacilities: the two source loops are the helper methods `CountMotorway` and `CountPrivate`, called in order.
- Text, booleans and missing values are the only non-integer values of `truck_spaces` modelled; floats count as not an integer, as in the source.
- ExtractAllOsmParking.ClassifyParkingFromOsm: `is_hgv` is a `bool`. The source's `or` chain can yield the truthy tag string itself.
- A dictionary key that is absent and one that holds `None` are both `None` in the model.
- GenerateReport.Expected: the `issue` and `action` texts of a recommendation are not modelled, only its priority, category and number of affected facilities.
- The unused `stats` parameter of `generate_recommendations` is left out.
- The `__main__` loop of estimate_maasvlakte_pilot.py is a driver and is left out. Its facility selection and per-area capacity are modelled by `SelectFacilities` and `AreaCapacity`.
- The `KeyError` raised for an area without a `geometry` entry is not modelled: the area's ring is an input.
- FindRotterdamFacilities.FindRotterdam: the `KeyError` for a missing `id` or `name` is not modelled. The enriched records always carry both; only the missing `classification` is an error path.
- The first 15 records that find_rotterdam_facilities.py prints are left out with the printing.
- Unicode case mapping, Unicode whitespace and Unicode digits are not modelled: `Lower` maps only `A`–`Z`; `int()` strips only ASCII whitespace and accepts only the ASCII digits `0`–`9`, while Python's `int()` also accepts other Unicode decimal digits.
- collect_osm_data.py skips an element whose bare numeric id was already processed, even when its element type differs. The model does the same, while the facility id carries the type.

## Findings

| source | as written | input that shows it | evidently intended | confidence | as-written member | corrected member |
|---|---|---|---|---|---|---|
| classify_parking_by_vehicle_type.py:236 | the capacity tally re-estimates a parking row from the raw `width_m` and `length_m`, while the classification estimated it from the reordered `(w, l)` | a zone with `width_m = 50`, `length_m = 4`, `area_m2 = 200`: classified as a row holding 3 standard trucks, yet the tally adds 0 vehicles | add the row estimate the classification already holds (line 253 reads it for printing), so the tally does not depend on which side is called the width | not executed | ClassifyParkingByVehicleType.RawDimensionsCounterexample | ClassifyParkingByVehicleType.CorrectedTally |

The as-written update is `ClassifyParkingByVehicleType.Record`, and the loop `AnalyzeMaasvlakteData` folds it (`TalliedFrom`), as the script does. The corrected update is `RecordCorrected`, folded by `TalliedCorrectedFrom`. `TalliedStatsAgree` shows the two tallies differ only in the capacity totals. `TalliedAgreeWhenOrdered` shows they are equal when every zone is given shorter side first. `TalliesDiffer` shows one zone given width first is enough to make them differ.
