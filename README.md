# Map metrics aggregation, modelled in Dafny

This project models the metrics engine of the map-metrics commandlet
(`Source/Private/MapMetricsGenerationCommandlet.cpp`). For one level, the engine
does three things:

- It registers five collectors in a fixed order: lights, static meshes, skeletal
  meshes, actors and particle systems (Niagara).
- It sends every actor of the level to every collector in one forward pass.
- It asks each collector, in the same order, to render its own named section of the
  report.

Each collector is an object whose integer counters and grouping maps change in place.
In the model, each collector is a `class` with the source's fields. Its `ProcessActor`
method is proved against a specification function on the collector's state, which
`Tally()` reads as a value. For lights, meshes and particle systems, that method loops
over the actor's components; the actor collector counts the actor itself, with no loop.
Rendering is a pure function of that state.

The scene is plain data (`Scene.Actor`): a name, a class name, and the sequences of
light mobilities, static meshes, skeletal meshes and particle-system components that
the collectors read.

Module layout:

- `Histogram`: the "find the entry or add it at zero, then increment" idiom, and the
  sum of a grouping map.
- `Rendering`: report sections, the `%i` decimal conversion, and the
  `"<n>_Materials"` / `"<n>_Emitters"` labels.
- One module per collector: `Lights`, `Meshes` (one class serves both mesh kinds),
  `Actors` and `Niagara`.
- `MapMetrics`: the registry of collectors and the per-level driver.

## Model

| member | source | states |
|---|---|---|
| Histogram.AddCount | Source/Private/MapMetricsGenerationCommandlet.cpp:164 | adding n occurrences of a key raises only that key's count by n; the key is inserted only when n > 0; every other entry is unchanged |
| Histogram.SumAddCount | Source/Private/MapMetricsGenerationCommandlet.cpp:164 | adding n occurrences of any key raises the sum of the map by exactly n |
| Histogram.TabulateCounts | Source/Private/MapMetricsGenerationCommandlet.cpp:209 | after a sequence of increments, a key is present iff it was present before or occurs in the sequence, and its count grows by its number of occurrences |
| Histogram.TabulateSum | Source/Private/MapMetricsGenerationCommandlet.cpp:209 | a sequence of increments raises the sum of the map by the length of the sequence |
| Rendering.NatToString | Source/Private/MapMetricsGenerationCommandlet.cpp:229 | the `%i` text of a non-negative count is a non-empty string of decimal digits with no leading zero, one digit long exactly for counts below 10 |
| Rendering.NatToStringValue | Source/Private/MapMetricsGenerationCommandlet.cpp:229 | the `%i` text of n denotes n: read as a decimal numeral, most significant digit first, its value is n |
| Rendering.NatToStringInjective | Source/Private/MapMetricsGenerationCommandlet.cpp:229 | distinct counts print as distinct texts |
| Rendering.LabelsDiffer | Source/Private/MapMetricsGenerationCommandlet.cpp:229 | distinct counts get distinct `"<n><suffix>"` labels, so no two histogram entries land on one key |
| Rendering.RenderHistogram | Source/Private/MapMetricsGenerationCommandlet.cpp:224-230 | the rendered object holds, for every key n of the map, the entry `"<n><suffix>"` with n's count, and no other entry |
| Rendering.RenderHistogramSum | Source/Private/MapMetricsGenerationCommandlet.cpp:224-232 | the entries of the rendered object sum to the sum of the map |
| Rendering.RenderHistogramEntries | Source/Private/MapMetricsGenerationCommandlet.cpp:224-232 | when the map counts the elements of a multiset, every distinct element k is rendered under `"<k><suffix>"` with its multiplicity, including k = 0, and every entry has that form |
| Rendering.RenderHistogramEmpty | Source/Private/MapMetricsGenerationCommandlet.cpp:224-232 | an empty map renders as an empty object |
| Lights.FirstUnrecognised | Source/Private/MapMetricsGenerationCommandlet.cpp:157-160 | the position of the first light whose mobility is none of the three known values: every earlier light is known, and it is unknown unless it is the end |
| Lights.FirstUnrecognisedAt | Source/Private/MapMetricsGenerationCommandlet.cpp:137-160 | the first unknown light is found at the end of any run of known lights that is followed by an unknown one or by the end |
| Lights.ObserveLightsCounts | Source/Private/MapMetricsGenerationCommandlet.cpp:133-165 | an actor's lights raise each bucket's total, and the actor's entry in that bucket's map, by the number of its lights of that mobility, and nothing else |
| Lights.RecognisedSplit | Source/Private/MapMetricsGenerationCommandlet.cpp:137-156 | when every mobility is known, the three mobility counts add up to the number of lights |
| Lights.TraverseLightsCounts | Source/Private/MapMetricsGenerationCommandlet.cpp:133-165 | after every actor of a level, each total equals the number of lights of that mobility, the three totals sum to the number of lights, and each per-actor map sums to its total |
| Lights.RenderLightsFields | Source/Private/MapMetricsGenerationCommandlet.cpp:174-182 | the section has exactly the fields "StaticLightCount", "StationaryLightCount" and "MoveableLightCount", each a number holding the matching total, zero included |
| Lights.RenderLightsZero | Source/Private/MapMetricsGenerationCommandlet.cpp:185-188 | a fresh collector renders only zeros |
| Lights.LightsSectionCounts | Source/Private/MapMetricsGenerationCommandlet.cpp:133-182 | the rendered section of a level counts each mobility's lights, and its three numbers sum to the number of lights |
| Lights.LightMetrics.constructor | Source/Private/MapMetricsGenerationCommandlet.cpp:185-188 | all three totals start at zero and all three maps start empty |
| Lights.LightMetrics.ProcessActor | Source/Private/MapMetricsGenerationCommandlet.cpp:128-165 | returns true iff every mobility is known; the new state is the old state with the lights before the first unknown one counted in order, so an unknown light and those after it change nothing |
| Lights.LightMetrics.CountLight | Source/Private/MapMetricsGenerationCommandlet.cpp:137-164 | one light of known mobility raises exactly its bucket's total and the owner's entry in that bucket's map |
| Lights.LightMetrics.GenerateMetricsReport | Source/Private/MapMetricsGenerationCommandlet.cpp:174-182 | the section has exactly the three total fields, each a number holding the collector's counter of that mobility; the collector is only read |
| Meshes.ObserveMeshesBuckets | Source/Private/MapMetricsGenerationCommandlet.cpp:200-207 | the two LOD buckets together grow by the number of meshes; "without LODs" grows by the number of meshes with exactly one LOD |
| Meshes.ObserveMeshesMaterials | Source/Private/MapMetricsGenerationCommandlet.cpp:209 | the material map receives one increment per mesh, at the mesh's material count |
| Meshes.ObserveMeshesCounts | Source/Private/MapMetricsGenerationCommandlet.cpp:198-210 | both of the above at once |
| Meshes.TraverseMeshesFlat | Source/Private/MapMetricsGenerationCommandlet.cpp:479-485 | visiting a level actor by actor counts the same meshes, in the same order, as one pass over all the level's meshes of the kind |
| Meshes.TraverseMeshesCounts | Source/Private/MapMetricsGenerationCommandlet.cpp:198-210 | after every actor of a level (for either mesh kind), the LOD buckets sum to the number of meshes, "without LODs" counts the meshes of exactly one LOD, the material map counts each material count's meshes, and its values sum to the number of meshes |
| Meshes.RenderMeshesFields | Source/Private/MapMetricsGenerationCommandlet.cpp:219-235 | the section has exactly the fields "WithLODsCount", "WithoutLODsCount" and "ByMaterialCount": two numbers holding the buckets and an object holding the rendered material map |
| Meshes.RenderMeshesZero | Source/Private/MapMetricsGenerationCommandlet.cpp:238-240 | a fresh collector renders two zeros and an empty object |
| Meshes.MeshesSectionCounts | Source/Private/MapMetricsGenerationCommandlet.cpp:219-235 | in the rendered section of a level, the two buckets and the "ByMaterialCount" entries each sum to the number of meshes of the kind |
| Meshes.MeshesSectionHistogram | Source/Private/MapMetricsGenerationCommandlet.cpp:224-232 | in the rendered section of a level, each material count k that some mesh has appears under `"<k>_Materials"` with its number of meshes, and nothing else appears |
| Meshes.MeshMetrics.constructor | Source/Private/MapMetricsGenerationCommandlet.cpp:238-240 | both buckets start at zero and the material map starts empty |
| Meshes.MeshMetrics.ProcessActor | Source/Private/MapMetricsGenerationCommandlet.cpp:193-211 | the new state is the old state with each of the actor's meshes of the collector's kind counted in order; the skeletal collector (245-263) runs the same code on skeletal meshes |
| Meshes.MeshMetrics.GenerateMetricsReport | Source/Private/MapMetricsGenerationCommandlet.cpp:219-235 | the section has exactly the two bucket numbers and the "ByMaterialCount" object, which holds one `"<n>_Materials"` entry with its count per key n of the material map and no other entry; the collector is only read |
| Actors.TraverseActorsTabulates | Source/Private/MapMetricsGenerationCommandlet.cpp:297-301 | after a level, the count is the number of actors and the class map counts the actors' classes |
| Actors.TraverseActorsCounts | Source/Private/MapMetricsGenerationCommandlet.cpp:297-301 | after a level, ActorCount equals the number of actors, every class seen is a key, each key's value is its number of actors, and the values sum to ActorCount |
| Actors.RenderActorsFields | Source/Private/MapMetricsGenerationCommandlet.cpp:309-324 | the section has exactly the fields "ActorCount", a number holding the total, and "ByClass", an object holding the per-class counts |
| Actors.RenderActorsZero | Source/Private/MapMetricsGenerationCommandlet.cpp:326-327 | a fresh collector renders a zero and an empty object |
| Actors.ActorsSectionCounts | Source/Private/MapMetricsGenerationCommandlet.cpp:309-324 | in the rendered section of a level, "ActorCount" and the sum of "ByClass" both equal the number of actors |
| Actors.ActorMetrics.constructor | Source/Private/MapMetricsGenerationCommandlet.cpp:326-327 | the count starts at zero and the class map starts empty |
| Actors.ActorMetrics.ProcessActor | Source/Private/MapMetricsGenerationCommandlet.cpp:297-301 | the count grows by one and the actor's class entry by one |
| Actors.ActorMetrics.GenerateMetricsReport | Source/Private/MapMetricsGenerationCommandlet.cpp:309-324 | the section has exactly "ActorCount", holding the actor count, and "ByClass", holding the per-class map; the collector is only read |
| Niagara.AssetsCount | Source/Private/MapMetricsGenerationCommandlet.cpp:339-355 | every component either has no asset or contributes exactly one asset |
| Niagara.ObserveComponentsCounters | Source/Private/MapMetricsGenerationCommandlet.cpp:339-355 | "without asset" grows by the number of components with no asset; the two GPU buckets together grow by the number of assets; "with GPU" grows by the number of assets with GPU emitters |
| Niagara.ObserveComponentsEmitters | Source/Private/MapMetricsGenerationCommandlet.cpp:350 | the emitter map receives one increment per asset, at its emitter count, and none for components without an asset |
| Niagara.ObserveComponentsCounts | Source/Private/MapMetricsGenerationCommandlet.cpp:337-356 | both of the above at once |
| Niagara.TraverseNiagaraFlat | Source/Private/MapMetricsGenerationCommandlet.cpp:479-485 | visiting a level actor by actor counts the same components, in the same order, as one pass over all of them |
| Niagara.TraverseNiagaraCounts | Source/Private/MapMetricsGenerationCommandlet.cpp:337-356 | after a level, the three counters sum to the number of components, "without asset" counts the components with no asset, the emitter map has a key exactly for each emitter count some asset has and counts that count's assets, and its values sum to "with GPU" plus "without GPU" |
| Niagara.RenderNiagaraFields | Source/Private/MapMetricsGenerationCommandlet.cpp:365-382 | the section has exactly the fields "WithoutAssetCount", "WithoutGPUEmitterCount", "WithGPUEmitterCount" and "ByMaterialCount": three numbers holding the counters and an object holding the rendered emitter map |
| Niagara.RenderNiagaraZero | Source/Private/MapMetricsGenerationCommandlet.cpp:384-387 | a fresh collector renders three zeros and an empty object |
| Niagara.NiagaraSectionCounts | Source/Private/MapMetricsGenerationCommandlet.cpp:365-382 | in the rendered section of a level, the three numbers sum to the number of components, and the "ByMaterialCount" entries sum to the two GPU counters |
| Niagara.NiagaraMetrics.constructor | Source/Private/MapMetricsGenerationCommandlet.cpp:384-387 | the three counters start at zero and the emitter map starts empty |
| Niagara.NiagaraMetrics.ProcessActor | Source/Private/MapMetricsGenerationCommandlet.cpp:332-356 | the new state is the old state with each of the actor's particle-system components counted in order |
| Niagara.NiagaraMetrics.GenerateMetricsReport | Source/Private/MapMetricsGenerationCommandlet.cpp:365-382 | the section has exactly the three counter numbers and the "ByMaterialCount" object, which holds one `"<n>_Emitters"` entry with its count per key n of the emitter map and no other entry; the collector is only read |
| MapMetrics.TraverseNext | Source/Private/MapMetricsGenerationCommandlet.cpp:479-485 | a level with one more actor is the earlier level's state with that actor sent to all five collectors |
| MapMetrics.TraverseSnoc | Source/Private/MapMetricsGenerationCommandlet.cpp:479-485 | appending an actor to a level of known lights keeps its lights known, and the state is the earlier state with that actor sent to every collector |
| MapMetrics.RenderSectionNames | Source/Private/MapMetricsGenerationCommandlet.cpp:110-119 | a report has exactly five sections, named Lights, StaticMeshes, SkeletalMeshes, Actors, Niagara in that order |
| MapMetrics.RenderShape | Source/Private/MapMetricsGenerationCommandlet.cpp:110-119 | every report, whatever the counts, has five sections named Lights, StaticMeshes, SkeletalMeshes, Actors, Niagara in that order, each with exactly its collector's fixed set of fields |
| MapMetrics.RenderFields | Source/Private/MapMetricsGenerationCommandlet.cpp:487-490 | the five sections carry, in order, the renderings of the lights, static-mesh, skeletal-mesh, actor and particle-system collectors |
| MapMetrics.ReportSections | Source/Private/MapMetricsGenerationCommandlet.cpp:487-490 | a level whose lights all have a known mobility yields a report, and each section is its collector's rendering after the whole level |
| MapMetrics.ReportConservation | Source/Private/MapMetricsGenerationCommandlet.cpp:479-490 | on the report itself: the light totals cover every light; each mesh section's buckets and material entries cover every mesh of its kind; ActorCount and "ByClass" cover every actor; the Niagara counters cover every component, and its emitter entries cover the assets |
| MapMetrics.ReportMaterialHistogram | Source/Private/MapMetricsGenerationCommandlet.cpp:224-232 | in each mesh section of the report, every material count k of the level appears under `"<k>_Materials"` with its number of meshes, and nothing else appears |
| MapMetrics.EmptyLevel | Source/Private/MapMetricsGenerationCommandlet.cpp:471-490 | a level with no actors yields all five sections in order, each with its full set of fields, every number zero and every object empty |
| MapMetrics.EmptyReportZero | Source/Private/MapMetricsGenerationCommandlet.cpp:185-188 | the collectors' initial states (the field initialisers at lines 185-188, 238-240, 290-292, 326-327 and 384-387) render as zeros and empty objects in every section |
| MapMetrics.ThreeActorReport | Source/Private/MapMetricsGenerationCommandlet.cpp:479-490 | for three actors of distinct classes, where A has a static and a movable light, B one static mesh of one LOD and no material, and C nothing: 1/0/1 lights, 0 with and 1 without LODs, `{"0_Materials": 1}`, ActorCount 3, one per class |
| MapMetrics.ThreeActorTallies | Source/Private/MapMetricsGenerationCommandlet.cpp:479-485 | the collectors' exact states after that three-actor level, including A's name counted once in the static and once in the movable per-actor maps |
| MapMetrics.MaterialsZeroOnce | Source/Private/MapMetricsGenerationCommandlet.cpp:229 | one mesh with no material is rendered as the single entry `"0_Materials": 1` |
| MapMetrics.UnknownMobilityLevel | Source/Private/MapMetricsGenerationCommandlet.cpp:157-160 | a level in which any actor has a light of unknown mobility, at any position, yields no report |
| MapMetrics.AllMetrics.constructor | Source/Private/MapMetricsGenerationCommandlet.cpp:471-477 | five fresh, distinct collectors in registration order, all in their initial state |
| MapMetrics.AllMetrics.ProcessActor | Source/Private/MapMetricsGenerationCommandlet.cpp:481-484 | returns true iff the actor's lights are all known; then each collector's new state depends only on its own old state and the actor, so no collector changes another's state; otherwise only the light collector has changed, by the lights before the first unknown one |
| MapMetrics.AllMetrics.GenerateReport | Source/Private/MapMetricsGenerationCommandlet.cpp:487-490 | each collector's section, under its report name and in registration order, is the report of the collectors' combined state |
| MapMetrics.ReportNames | Source/Private/MapMetricsGenerationCommandlet.cpp:110-119 | the report names of the registered collectors (lines 169-172, 214-217, 266-269, 304-307 and 360-363) are the section names in registration order, and no two are equal, so setting one section never replaces another |
| MapMetrics.GenerateMapMetrics | Source/Private/MapMetricsGenerationCommandlet.cpp:471-490 | the result is the level's aggregate; it is a failure iff some light has an unknown mobility; a report always has the five section names in order |

## Left out

- Level loading (`FLevelLoader`), command-line parsing, package discovery, and the loop
  over several packages are not modelled. They are engine calls that the model cannot
  see. The driver models one already-loaded level, given as its sequence of actors.
  The early `return 2` when a world fails to load belongs to that outer loop.
- JSON serialisation, the output file and every log line are left out. A report is a
  sequence of `Rendering.Section` values: a name and a map from field names to numbers
  or one-level nested objects.
- Listing actors and their components is engine I/O. It is replaced by the component
  sequences of `Scene.Actor`, in the order the engine returns them.
- An unknown light mobility stops the source with a fatal assertion. That ends the
  whole run, including any later levels. The model returns
  `Failure(UnrecognisedMobility)` for that level instead, and does not model the batch.
  The failure carries no diagnostic, because the source's assertion gives none.
- The counters are 32-bit `int` in the source. The model uses unbounded naturals, so a
  level with more than 2^31 - 1 components of one kind would wrap in the source but
  not in the model.
- A static-mesh component with no mesh would dereference a null pointer in the source
  (the LOD query at line 200). The model assumes every static-mesh component has a mesh,
  with a LOD count and a material count. A particle-system component without an asset
  is checked for in the source and is `None` in the model.
- The source keys the actor map by class object and renders it by class name into a
  JSON object, whose field names compare without regard to case. The model keys the map
  by class name and keeps names case-sensitive. Two distinct classes with the same name
  share one entry holding both counts in the model; names that differ only in case get
  two entries. In the source, either way, the later class's count overwrites the
  earlier one's in the rendered object, so there the "ByClass" values can sum to less
  than "ActorCount". `ActorsSectionCounts` and `ReportConservation` state that sum for
  the model only.
- The source's per-actor light maps are keyed by actor name with case-insensitive
  string keys. The model's `staticByActor`, `stationaryByActor` and `movableByActor`
  are case-sensitive, so for actors whose names differ only in case the map contents
  stated by `ObserveLightsCounts`, `LightMetrics.ProcessActor` and `ThreeActorTallies`
  differ from the source's. These maps are never rendered, so no report value changes.
- The iteration order of the source's maps is unspecified, so rendered histograms are
  modelled as maps, not as ordered lists of entries.
- Three behaviours of the code are modelled as written:
  - a mesh with 0 LODs counts as "with LODs", because only a count of exactly 1 is
    "without";
  - the Niagara emitter histogram sits under the key "ByMaterialCount", with
    `"<n>_Emitters"` labels;
  - an unknown mobility is a fatal assertion. The model returns
    `Failure(UnrecognisedMobility)` for that level, as described above.
- Module registration and build files hold no logic and are not modelled.
