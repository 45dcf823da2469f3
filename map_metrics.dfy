/**
 * The aggregation driver: five collectors are registered in a fixed order, every
 * actor is sent to every collector in a single forward pass, and each collector then
 * renders one named section of the report. A light of unknown mobility abandons the
 * level: no report is produced.
 */
module MapMetrics {
  import opened Wrappers
  import opened Histogram
  import opened Scene
  import opened Rendering
  import opened Lights
  import opened Meshes
  import opened Actors
  import opened Niagara

  /** Why a level produced no report. */
  datatype MetricsError = UnrecognisedMobility

  /** The states of the five collectors, in registration order. */
  datatype Tallies = Tallies(
    lights: LightTally,
    staticMeshes: MeshTally,
    skeletalMeshes: MeshTally,
    actors: ActorTally,
    niagara: NiagaraTally)

  /** The section names, in registration order. */
  const SectionNames: seq<string> := ["Lights", "StaticMeshes", "SkeletalMeshes", "Actors", "Niagara"]

  /** One actor sent to every collector. */
  function ObserveAll(t: Tallies, a: Actor): Tallies
    requires AllRecognised(a.lights)
  {
    Tallies(
      ObserveLights(t.lights, a.name, a.lights),
      ObserveMeshes(t.staticMeshes, a.staticMeshes),
      ObserveMeshes(t.skeletalMeshes, a.skeletalMeshes),
      ObserveActor(t.actors, a),
      ObserveComponents(t.niagara, a.niagara))
  }

  /** The five collectors' states after a traversal of the actors. */
  function Traverse(actors: seq<Actor>): Tallies
    requires LightsRecognised(actors)
  {
    Tallies(
      TraverseLights(actors),
      TraverseMeshes(StaticMesh, actors),
      TraverseMeshes(SkeletalMesh, actors),
      TraverseActors(actors),
      TraverseNiagara(actors))
  }

  /** The report: one section per collector, in registration order. */
  function Render(t: Tallies): seq<Section>
  {
    [ Section("Lights", RenderLights(t.lights)),
      Section("StaticMeshes", RenderMeshes(t.staticMeshes)),
      Section("SkeletalMeshes", RenderMeshes(t.skeletalMeshes)),
      Section("Actors", RenderActors(t.actors)),
      Section("Niagara", RenderNiagara(t.niagara)) ]
  }

  /** The outcome of processing one level. */
  function Aggregate(actors: seq<Actor>): Result<seq<Section>, MetricsError>
  {
    if LightsRecognised(actors) then Success(Render(Traverse(actors))) else Failure(UnrecognisedMobility)
  }

  function Names(report: seq<Section>): seq<string>
  {
    seq(|report|, i requires 0 <= i < |report| => report[i].name)
  }

  /** Traversing a level with one more actor at its end is observing that actor last. */
  lemma TraverseSnoc(prefix: seq<Actor>, a: Actor)
    requires LightsRecognised(prefix) && AllRecognised(a.lights)
    ensures LightsRecognised(prefix + [a])
    ensures Traverse(prefix + [a]) == ObserveAll(Traverse(prefix), a)
  {
    var level := prefix + [a];
    assert level[..|level| - 1] == prefix;
  }

  /** Traversing one more actor is observing it after the earlier ones. */
  lemma TraverseNext(actors: seq<Actor>, i: nat)
    requires i < |actors| && LightsRecognised(actors[..i]) && AllRecognised(actors[i].lights)
    ensures LightsRecognised(actors[..i + 1])
    ensures Traverse(actors[..i + 1]) == ObserveAll(Traverse(actors[..i]), actors[i])
  {
    forall a | a in actors[..i + 1] ensures AllRecognised(a.lights) {
      var j :| 0 <= j < i + 1 && actors[..i + 1][j] == a;
      if j < i { assert a in actors[..i]; }
    }
    assert actors[..i + 1][..i] == actors[..i];
  }

  /** A report has one section per collector, named in registration order. */
  lemma RenderSectionNames(t: Tallies)
    ensures Names(Render(t)) == SectionNames
  {
    var names := Names(Render(t));
    assert |names| == |SectionNames|;
    assert names[0] == SectionNames[0] && names[1] == SectionNames[1] && names[2] == SectionNames[2];
    assert names[3] == SectionNames[3] && names[4] == SectionNames[4];
  }

  /**
   * Every report has the same shape, whatever the counts: five sections named in
   * registration order, each with its collector's fixed set of fields.
   */
  lemma RenderShape(t: Tallies)
    ensures |Render(t)| == 5
    ensures Names(Render(t)) == SectionNames
    ensures Render(t)[0].fields.Keys == LightFields
    ensures Render(t)[1].fields.Keys == MeshFields && Render(t)[2].fields.Keys == MeshFields
    ensures Render(t)[3].fields.Keys == ActorFields
    ensures Render(t)[4].fields.Keys == NiagaraFields
  {
    RenderSectionNames(t);
    RenderFields(t);
    RenderLightsFields(t.lights);
    RenderMeshesFields(t.staticMeshes);
    RenderMeshesFields(t.skeletalMeshes);
    RenderActorsFields(t.actors);
    RenderNiagaraFields(t.niagara);
  }

  /** The first section of a report is the light collector's. */
  lemma RenderLightsSection(t: Tallies)
    ensures |Render(t)| == 5 && Render(t)[0] == Section("Lights", RenderLights(t.lights))
  {
  }

  /** The second section of a report is the static mesh collector's. */
  lemma RenderStaticMeshesSection(t: Tallies)
    ensures |Render(t)| == 5 && Render(t)[1] == Section("StaticMeshes", RenderMeshes(t.staticMeshes))
  {
  }

  /** The third section of a report is the skeletal mesh collector's. */
  lemma RenderSkeletalMeshesSection(t: Tallies)
    ensures |Render(t)| == 5 && Render(t)[2] == Section("SkeletalMeshes", RenderMeshes(t.skeletalMeshes))
  {
  }

  /** The fourth section of a report is the actor collector's. */
  lemma RenderActorsSection(t: Tallies)
    ensures |Render(t)| == 5 && Render(t)[3] == Section("Actors", RenderActors(t.actors))
  {
  }

  /** The fifth section of a report is the particle-system collector's. */
  lemma RenderNiagaraSection(t: Tallies)
    ensures |Render(t)| == 5 && Render(t)[4] == Section("Niagara", RenderNiagara(t.niagara))
  {
  }

  /** The report has one section per collector, in registration order. */
  lemma RenderFields(t: Tallies)
    ensures |Render(t)| == 5
    ensures Render(t)[0].fields == RenderLights(t.lights)
    ensures Render(t)[1].fields == RenderMeshes(t.staticMeshes)
    ensures Render(t)[2].fields == RenderMeshes(t.skeletalMeshes)
    ensures Render(t)[3].fields == RenderActors(t.actors)
    ensures Render(t)[4].fields == RenderNiagara(t.niagara)
  {
    RenderLightsSection(t);
    RenderStaticMeshesSection(t);
    RenderSkeletalMeshesSection(t);
    RenderActorsSection(t);
    RenderNiagaraSection(t);
  }

  /**
   * A level whose lights all have a known mobility yields a report, and each section
   * of it is the rendering of its collector after seeing every actor of the level.
   */
  lemma ReportSections(actors: seq<Actor>)
    requires LightsRecognised(actors)
    ensures Aggregate(actors).Success? && |Aggregate(actors).value| == 5
    ensures Aggregate(actors).value[0].fields == RenderLights(TraverseLights(actors))
    ensures Aggregate(actors).value[1].fields == RenderMeshes(TraverseMeshes(StaticMesh, actors))
    ensures Aggregate(actors).value[2].fields == RenderMeshes(TraverseMeshes(SkeletalMesh, actors))
    ensures Aggregate(actors).value[3].fields == RenderActors(TraverseActors(actors))
    ensures Aggregate(actors).value[4].fields == RenderNiagara(TraverseNiagara(actors))
  {
    var t := Traverse(actors);
    assert Aggregate(actors) == Success(Render(t));
    RenderFields(t);
  }

  /**
   * Conservation, read off the rendered report: the light totals cover every light
   * component; each mesh section's LOD buckets and its material histogram both
   * cover every mesh component of its kind; ActorCount and the per-class counts
   * cover every actor; the three particle-system counters cover every component and
   * the emitter histogram covers the components that have an asset.
   */
  lemma ReportConservation(actors: seq<Actor>)
    requires LightsRecognised(actors)
    ensures Aggregate(actors).Success? && |Aggregate(actors).value| == 5
    ensures var fields := Aggregate(actors).value[0].fields;
      NumberAt(fields, "StaticLightCount") + NumberAt(fields, "StationaryLightCount")
      + NumberAt(fields, "MoveableLightCount") == |AllLights(actors)|
    ensures var fields, all := Aggregate(actors).value[1].fields, AllMeshes(StaticMesh, actors);
      && NumberAt(fields, "WithLODsCount") + NumberAt(fields, "WithoutLODsCount") == |all|
      && Sum(EntriesAt(fields, "ByMaterialCount")) == |all|
    ensures var fields, all := Aggregate(actors).value[2].fields, AllMeshes(SkeletalMesh, actors);
      && NumberAt(fields, "WithLODsCount") + NumberAt(fields, "WithoutLODsCount") == |all|
      && Sum(EntriesAt(fields, "ByMaterialCount")) == |all|
    ensures var fields := Aggregate(actors).value[3].fields;
      NumberAt(fields, "ActorCount") == |actors| && Sum(EntriesAt(fields, "ByClass")) == |actors|
    ensures var fields := Aggregate(actors).value[4].fields;
      && NumberAt(fields, "WithoutAssetCount") + NumberAt(fields, "WithoutGPUEmitterCount")
         + NumberAt(fields, "WithGPUEmitterCount") == |AllNiagara(actors)|
      && Sum(EntriesAt(fields, "ByMaterialCount"))
         == NumberAt(fields, "WithGPUEmitterCount") + NumberAt(fields, "WithoutGPUEmitterCount")
  {
    ReportSections(actors);
    LightsSectionCounts(actors);
    MeshesSectionCounts(StaticMesh, actors);
    MeshesSectionCounts(SkeletalMesh, actors);
    ActorsSectionCounts(actors);
    NiagaraSectionCounts(actors);
  }

  /**
   * The material histograms of a level's report: in each mesh section, a material
   * count k that some mesh of that kind has appears under "<k>_Materials" with the
   * number of such meshes, and every entry is of that form.
   */
  lemma ReportMaterialHistogram(actors: seq<Actor>, kind: MeshKind)
    requires LightsRecognised(actors)
    ensures Aggregate(actors).Success? && |Aggregate(actors).value| == 5
    ensures CountsRendered(EntriesAt(Aggregate(actors).value[if kind == StaticMesh then 1 else 2].fields, "ByMaterialCount"),
                           multiset(Materials(AllMeshes(kind, actors))), "_Materials")
  {
    ReportSections(actors);
    MeshesSectionHistogram(kind, actors);
  }

  /** The shape of the three-actor level: A has a static and a movable light, B one static mesh of a single LOD and no material, C nothing. */
  predicate ThreeActorShape(a: Actor, b: Actor, c: Actor)
  {
    && a.lights == [Static, Movable] && a.staticMeshes == [] && a.skeletalMeshes == [] && a.niagara == []
    && b.lights == [] && b.staticMeshes == [Mesh(1, 0)] && b.skeletalMeshes == [] && b.niagara == []
    && c.lights == [] && c.staticMeshes == [] && c.skeletalMeshes == [] && c.niagara == []
  }

  lemma ObserveFirst(a: Actor, b: Actor, c: Actor)
    requires ThreeActorShape(a, b, c)
    ensures ObserveAll(Tallies(NoLights, NoMeshes, NoMeshes, NoActors, NoNiagara), a)
      == Tallies(LightTally(1, 0, 1, map[a.name := 1], map[], map[a.name := 1]),
                 NoMeshes, NoMeshes, ActorTally(1, map[a.cls := 1]), NoNiagara)
  {
    assert a.lights[..1] == [Static];
    assert ObserveLights(NoLights, a.name, [Static]) == LightTally(1, 0, 0, map[a.name := 1], map[], map[]);
  }

  lemma ObserveSecond(a: Actor, b: Actor, c: Actor, lights: LightTally)
    requires ThreeActorShape(a, b, c) && a.cls != b.cls
    ensures ObserveAll(Tallies(lights, NoMeshes, NoMeshes, ActorTally(1, map[a.cls := 1]), NoNiagara), b)
      == Tallies(lights, MeshTally(0, 1, map[0 := 1]), NoMeshes,
                 ActorTally(2, map[a.cls := 1, b.cls := 1]), NoNiagara)
  {
    assert b.staticMeshes[..0] == [];
  }

  lemma ObserveThird(a: Actor, b: Actor, c: Actor, lights: LightTally, meshes: MeshTally)
    requires ThreeActorShape(a, b, c) && a.cls != c.cls && b.cls != c.cls
    ensures ObserveAll(Tallies(lights, meshes, NoMeshes, ActorTally(2, map[a.cls := 1, b.cls := 1]), NoNiagara), c)
      == Tallies(lights, meshes, NoMeshes, ActorTally(3, map[a.cls := 1, b.cls := 1, c.cls := 1]), NoNiagara)
  {
  }

  /** Building the three-actor level one actor at a time. */
  lemma Appended<T>(a: T, b: T, c: T)
    ensures [] + [a] == [a] && [a] + [b] == [a, b] && [a, b] + [c] == [a, b, c]
  {
  }

  /** The collectors' states after the first two of the three actors. */
  lemma TwoActorTallies(a: Actor, b: Actor, c: Actor)
    requires ThreeActorShape(a, b, c) && a.cls != b.cls
    ensures LightsRecognised([a, b])
    ensures Traverse([a, b]) == Tallies(
      LightTally(1, 0, 1, map[a.name := 1], map[], map[a.name := 1]),
      MeshTally(0, 1, map[0 := 1]),
      NoMeshes,
      ActorTally(2, map[a.cls := 1, b.cls := 1]),
      NoNiagara)
  {
    assert Traverse([]) == Tallies(NoLights, NoMeshes, NoMeshes, NoActors, NoNiagara);
    ObserveFirst(a, b, c);
    TraverseSnoc([], a);
    ObserveSecond(a, b, c, LightTally(1, 0, 1, map[a.name := 1], map[], map[a.name := 1]));
    Appended(a, b, c);
    TraverseSnoc([a], b);
  }

  /** The collectors' states after the three actors. */
  lemma ThreeActorTallies(a: Actor, b: Actor, c: Actor)
    requires ThreeActorShape(a, b, c) && a.cls != b.cls && a.cls != c.cls && b.cls != c.cls
    ensures LightsRecognised([a, b, c])
    ensures Traverse([a, b, c]) == Tallies(
      LightTally(1, 0, 1, map[a.name := 1], map[], map[a.name := 1]),
      MeshTally(0, 1, map[0 := 1]),
      NoMeshes,
      ActorTally(3, map[a.cls := 1, b.cls := 1, c.cls := 1]),
      NoNiagara)
  {
    var lights, meshes := LightTally(1, 0, 1, map[a.name := 1], map[], map[a.name := 1]), MeshTally(0, 1, map[0 := 1]);
    var two := Tallies(lights, meshes, NoMeshes, ActorTally(2, map[a.cls := 1, b.cls := 1]), NoNiagara);
    TwoActorTallies(a, b, c);
    assert Traverse([a, b]) == two;
    ObserveThird(a, b, c, lights, meshes);
    Appended(a, b, c);
    TraverseSnoc([a, b], c);
  }

  /**
   * The report of the three-actor level counts one static and one movable light, one
   * static mesh without LODs listed under "0_Materials", and three actors, one per
   * class.
   */
  lemma ThreeActorReport(a: Actor, b: Actor, c: Actor)
    requires ThreeActorShape(a, b, c) && a.cls != b.cls && a.cls != c.cls && b.cls != c.cls
    ensures Aggregate([a, b, c]).Success? && |Aggregate([a, b, c]).value| == 5
    ensures var lights := Aggregate([a, b, c]).value[0].fields;
      && NumberAt(lights, "StaticLightCount") == 1
      && NumberAt(lights, "StationaryLightCount") == 0
      && NumberAt(lights, "MoveableLightCount") == 1
    ensures var meshes := Aggregate([a, b, c]).value[1].fields;
      && NumberAt(meshes, "WithLODsCount") == 0
      && NumberAt(meshes, "WithoutLODsCount") == 1
      && EntriesAt(meshes, "ByMaterialCount") == map["0_Materials" := 1]
    ensures var actors := Aggregate([a, b, c]).value[3].fields;
      && NumberAt(actors, "ActorCount") == 3
      && EntriesAt(actors, "ByClass") == map[a.cls := 1, b.cls := 1, c.cls := 1]
  {
    ThreeActorTallies(a, b, c);
    var t := Traverse([a, b, c]);
    assert Aggregate([a, b, c]) == Success(Render(t));
    RenderFields(t);
    RenderLightsFields(t.lights);
    RenderMeshesFields(t.staticMeshes);
    RenderActorsFields(t.actors);
    MaterialsZeroOnce();
  }

  /** The material histogram with one mesh of no material renders as a single "0_Materials" entry. */
  lemma MaterialsZeroOnce()
    ensures RenderHistogram(map[0 := 1], "_Materials") == map["0_Materials" := 1]
  {
    var entries := RenderHistogram(map[0 := 1], "_Materials");
    assert NatToString(0) == "0";
    assert Label(0, "_Materials") == "0_Materials";
  }

  /** A level holding a light of unknown mobility, in any actor at any position, yields no report. */
  lemma UnknownMobilityLevel(actors: seq<Actor>, a: Actor, j: nat)
    requires a in actors && j < |a.lights| && !a.lights[j].IsRecognised()
    ensures Aggregate(actors) == Failure(UnrecognisedMobility)
  {
    assert !AllRecognised(a.lights);
  }

  /** Every field of every section is a zero or an empty object. */
  predicate AllZero(report: seq<Section>)
  {
    forall i :: 0 <= i < |report| ==> ZeroFields(report[i].fields)
  }

  /** A level without actors yields all five sections with all their fields, every number zero and every object empty. */
  lemma EmptyLevel()
    ensures Aggregate([]).Success?
    ensures Names(Aggregate([]).value) == SectionNames
    ensures |Aggregate([]).value| == 5
    ensures Aggregate([]).value[0].fields.Keys == LightFields
    ensures Aggregate([]).value[1].fields.Keys == MeshFields && Aggregate([]).value[2].fields.Keys == MeshFields
    ensures Aggregate([]).value[3].fields.Keys == ActorFields
    ensures Aggregate([]).value[4].fields.Keys == NiagaraFields
    ensures AllZero(Aggregate([]).value)
  {
    var t := Traverse([]);
    assert t == Tallies(NoLights, NoMeshes, NoMeshes, NoActors, NoNiagara);
    assert Aggregate([]) == Success(Render(t));
    RenderShape(t);
    EmptyReportZero(t);
  }

  /** Rendering the collectors' initial states gives only zeros and empty objects. */
  lemma EmptyReportZero(t: Tallies)
    requires t == Tallies(NoLights, NoMeshes, NoMeshes, NoActors, NoNiagara)
    ensures AllZero(Render(t))
  {
    RenderFields(t);
    forall i | 0 <= i < |Render(t)|
      ensures ZeroFields(Render(t)[i].fields)
    {
      if i == 0 {
        RenderLightsZero();
      } else if i == 1 || i == 2 {
        RenderMeshesZero();
      } else if i == 3 {
        RenderActorsZero();
      } else {
        RenderNiagaraZero();
      }
    }
  }

  /** The registered collectors (all_metrics), in registration order. */
  class AllMetrics {
    const lights: LightMetrics
    const staticMeshes: MeshMetrics
    const skeletalMeshes: MeshMetrics
    const actors: ActorMetrics
    const niagara: NiagaraMetrics

    predicate Valid()
    {
      staticMeshes.kind == StaticMesh && skeletalMeshes.kind == SkeletalMesh && staticMeshes != skeletalMeshes
    }

    function State(): Tallies
      reads lights, staticMeshes, skeletalMeshes, actors, niagara
    {
      Tallies(lights.Tally(), staticMeshes.Tally(), skeletalMeshes.Tally(), actors.Tally(), niagara.Tally())
    }

    constructor ()
      ensures Valid()
      ensures fresh(lights) && fresh(staticMeshes) && fresh(skeletalMeshes) && fresh(actors) && fresh(niagara)
      ensures State() == Tallies(NoLights, NoMeshes, NoMeshes, NoActors, NoNiagara)
    {
      lights := new LightMetrics();
      staticMeshes := new MeshMetrics(StaticMesh);
      skeletalMeshes := new MeshMetrics(SkeletalMesh);
      actors := new ActorMetrics();
      niagara := new NiagaraMetrics();
    }

    /**
     * Sends one actor to every collector in registration order. The light collector
     * comes first; when it fails, the others do not see the actor.
     */
    method ProcessActor(actor: Actor) returns (ok: bool)
      requires Valid()
      modifies lights, staticMeshes, skeletalMeshes, actors, niagara
      ensures ok == AllRecognised(actor.lights)
      ensures ok ==> State() == ObserveAll(old(State()), actor)
      ensures !ok ==> State() == old(State()).(lights := ObserveLights(old(State()).lights, actor.name,
                                                   actor.lights[..FirstUnrecognised(actor.lights)]))
    {
      ok := lights.ProcessActor(actor);
      if !ok {
        return;
      }
      assert actor.lights[..FirstUnrecognised(actor.lights)] == actor.lights;
      staticMeshes.ProcessActor(actor);
      skeletalMeshes.ProcessActor(actor);
      actors.ProcessActor(actor);
      niagara.ProcessActor(actor);
    }

    /** Each collector adds its section, under its report name, in registration order. */
    function GenerateReport(): (report: seq<Section>)
      reads lights, staticMeshes, skeletalMeshes, actors, niagara
      requires Valid()
      ensures report == Render(State())
    {
      [ Section(lights.ReportName(), lights.GenerateMetricsReport()),
        Section(staticMeshes.ReportName(), staticMeshes.GenerateMetricsReport()),
        Section(skeletalMeshes.ReportName(), skeletalMeshes.GenerateMetricsReport()),
        Section(actors.ReportName(), actors.GenerateMetricsReport()),
        Section(niagara.ReportName(), niagara.GenerateMetricsReport()) ]
    }
  }

  /**
   * The registered collectors report under the section names in registration order,
   * and no two of those names coincide, so adding a section never replaces another.
   */
  lemma ReportNames(m: AllMetrics)
    requires m.Valid()
    ensures [m.lights.ReportName(), m.staticMeshes.ReportName(), m.skeletalMeshes.ReportName(),
             m.actors.ReportName(), m.niagara.ReportName()] == SectionNames
    ensures forall i, j :: 0 <= i < j < |SectionNames| ==> SectionNames[i] != SectionNames[j]
  {
  }

  /**
   * Processes one level's actors: fresh collectors are registered, every actor is
   * sent to all of them in sequence order, then the report is assembled. A light of
   * unknown mobility abandons the level with no report.
   */
  method GenerateMapMetrics(actors: seq<Actor>) returns (r: Result<seq<Section>, MetricsError>)
    ensures r == Aggregate(actors)
    ensures r.Failure? <==> exists a, j :: a in actors && 0 <= j < |a.lights| && !a.lights[j].IsRecognised()
    ensures r.Success? ==> Names(r.value) == SectionNames
  {
    var allMetrics := new AllMetrics();
    for i := 0 to |actors|
      invariant LightsRecognised(actors[..i])
      invariant allMetrics.State() == Traverse(actors[..i])
    {
      var ok := allMetrics.ProcessActor(actors[i]);
      if !ok {
        assert actors[i] in actors;
        return Failure(UnrecognisedMobility);
      }
      TraverseNext(actors, i);
    }
    assert actors[..|actors|] == actors;
    r := Success(allMetrics.GenerateReport());
    RenderSectionNames(allMetrics.State());
  }
}
