/**
 * The static-mesh and skeletal-mesh collectors, which differ only in the components
 * they read and the name of their section. A mesh with exactly one LOD counts as
 * "without LODs", any other LOD count as "with LODs"; independently, the mesh's
 * material count is counted in a histogram.
 */
module Meshes {
  import opened Histogram
  import opened Scene
  import opened Rendering

  /** The collector's state as a value. */
  datatype MeshTally = MeshTally(withLods: nat, withoutLods: nat, byMaterials: map<nat, nat>)

  /** The state of a freshly created collector. */
  const NoMeshes := MeshTally(0, 0, map[])

  /** One mesh: its LOD bucket and its material-count entry go up by one. */
  function ObserveMesh(t: MeshTally, m: Mesh): MeshTally
  {
    if m.lods == 1 then
      t.(withoutLods := t.withoutLods + 1, byMaterials := Bump(t.byMaterials, m.materials))
    else
      t.(withLods := t.withLods + 1, byMaterials := Bump(t.byMaterials, m.materials))
  }

  /** The meshes, in order. */
  function ObserveMeshes(t: MeshTally, ms: seq<Mesh>): MeshTally
  {
    if ms == [] then t else ObserveMesh(ObserveMeshes(t, ms[..|ms| - 1]), ms[|ms| - 1])
  }

  /** The LOD count of every mesh. */
  function Lods(ms: seq<Mesh>): seq<nat>
  {
    seq(|ms|, i requires 0 <= i < |ms| => ms[i].lods)
  }

  /** The material count of every mesh. */
  function Materials(ms: seq<Mesh>): seq<nat>
  {
    seq(|ms|, i requires 0 <= i < |ms| => ms[i].materials)
  }

  /** Observing a concatenation is observing its two parts one after the other. */
  lemma {:induction false} ObserveMeshesAppend(t: MeshTally, ms: seq<Mesh>, ns: seq<Mesh>)
    ensures ObserveMeshes(t, ms + ns) == ObserveMeshes(ObserveMeshes(t, ms), ns)
    decreases |ns|
  {
    if ns != [] {
      assert (ms + ns)[..|ms + ns| - 1] == ms + ns[..|ns| - 1];
      ObserveMeshesAppend(t, ms, ns[..|ns| - 1]);
    } else {
      assert ms + ns == ms;
    }
  }

  /**
   * Every mesh lands in exactly one LOD bucket, the "without LODs" bucket receives
   * the meshes with exactly one LOD, and the histogram receives one occurrence of
   * each mesh's material count.
   */
  lemma ObserveMeshesCounts(t: MeshTally, ms: seq<Mesh>)
    ensures var r := ObserveMeshes(t, ms);
      && r.withLods + r.withoutLods == t.withLods + t.withoutLods + |ms|
      && r.withoutLods == t.withoutLods + multiset(Lods(ms))[1]
      && r.byMaterials == Tabulate(t.byMaterials, Materials(ms))
  {
    ObserveMeshesBuckets(t, ms);
    ObserveMeshesMaterials(t, ms);
  }

  /** Observing one more mesh of a sequence. */
  lemma ObserveMeshesNext(t: MeshTally, ms: seq<Mesh>, i: nat)
    requires i < |ms|
    ensures ObserveMeshes(t, ms[..i + 1]) == ObserveMesh(ObserveMeshes(t, ms[..i]), ms[i])
  {
    assert ms[..i + 1][..i] == ms[..i];
  }

  /** The LOD buckets: every mesh lands in one, and "without LODs" takes exactly the meshes of one LOD. */
  lemma {:induction false} ObserveMeshesBuckets(t: MeshTally, ms: seq<Mesh>)
    ensures var r := ObserveMeshes(t, ms);
      && r.withLods + r.withoutLods == t.withLods + t.withoutLods + |ms|
      && r.withoutLods == t.withoutLods + multiset(Lods(ms))[1]
  {
    if ms != [] {
      var p := ms[..|ms| - 1];
      ObserveMeshesBuckets(t, p);
      assert Lods(p) == Lods(ms)[..|ms| - 1];
      MultisetLast(Lods(ms), 1);
    }
  }

  /** The material histogram tabulates the material counts of the meshes. */
  lemma {:induction false} ObserveMeshesMaterials(t: MeshTally, ms: seq<Mesh>)
    ensures ObserveMeshes(t, ms).byMaterials == Tabulate(t.byMaterials, Materials(ms))
  {
    if ms != [] {
      var p := ms[..|ms| - 1];
      ObserveMeshesMaterials(t, p);
      assert Materials(p) == Materials(ms)[..|ms| - 1];
    }
  }

  /** The collector's state after observing every actor in order. */
  function TraverseMeshes(kind: MeshKind, actors: seq<Actor>): MeshTally
  {
    if actors == [] then NoMeshes
    else ObserveMeshes(TraverseMeshes(kind, actors[..|actors| - 1]), actors[|actors| - 1].MeshesOf(kind))
  }

  /** A traversal observes the meshes of all actors as one sequence. */
  lemma {:induction false} TraverseMeshesFlat(kind: MeshKind, actors: seq<Actor>)
    ensures TraverseMeshes(kind, actors) == ObserveMeshes(NoMeshes, AllMeshes(kind, actors))
  {
    if actors != [] {
      var p := actors[..|actors| - 1];
      TraverseMeshesFlat(kind, p);
      ObserveMeshesAppend(NoMeshes, AllMeshes(kind, p), actors[|actors| - 1].MeshesOf(kind));
    }
  }

  /**
   * After a traversal the two LOD buckets add up to the number of meshes of the kind,
   * "without LODs" holds those with exactly one LOD, the histogram holds, for each
   * material count, the number of meshes with that count (zero included), and its
   * values add up to the number of meshes.
   */
  lemma TraverseMeshesCounts(kind: MeshKind, actors: seq<Actor>)
    ensures var r, all := TraverseMeshes(kind, actors), AllMeshes(kind, actors);
      && r.withLods + r.withoutLods == |all|
      && r.withoutLods == multiset(Lods(all))[1]
      && (forall k :: k in r.byMaterials <==> k in multiset(Materials(all)))
      && (forall k :: Get(r.byMaterials, k) == multiset(Materials(all))[k])
      && Sum(r.byMaterials) == |all|
  {
    var all := AllMeshes(kind, actors);
    TraverseMeshesFlat(kind, actors);
    ObserveMeshesCounts(NoMeshes, all);
    TabulateCounts(map[], Materials(all));
    TabulateSum(map[], Materials(all));
  }

  /** A "StaticMeshes" or "SkeletalMeshes" section: the two LOD buckets and the "<n>_Materials" histogram. */
  function RenderMeshes(t: MeshTally): map<string, Field>
  {
    map[
      "WithLODsCount" := Number(t.withLods),
      "WithoutLODsCount" := Number(t.withoutLods),
      "ByMaterialCount" := Object(RenderHistogram(t.byMaterials, "_Materials"))]
  }

  /** The fields of every "StaticMeshes" or "SkeletalMeshes" section, whatever the counts. */
  const MeshFields: set<string> := {"WithLODsCount", "WithoutLODsCount", "ByMaterialCount"}

  /**
   * The rendered section has exactly the two bucket fields, numbers holding the
   * tally's buckets, and the "ByMaterialCount" object holding the labelled histogram.
   */
  lemma RenderMeshesFields(t: MeshTally)
    ensures RenderMeshes(t).Keys == MeshFields
    ensures RenderMeshes(t)["WithLODsCount"] == Number(t.withLods)
    ensures RenderMeshes(t)["WithoutLODsCount"] == Number(t.withoutLods)
    ensures RenderMeshes(t)["ByMaterialCount"].Object?
    ensures NumberAt(RenderMeshes(t), "WithLODsCount") == t.withLods
    ensures NumberAt(RenderMeshes(t), "WithoutLODsCount") == t.withoutLods
    ensures EntriesAt(RenderMeshes(t), "ByMaterialCount") == RenderHistogram(t.byMaterials, "_Materials")
  {
    var fields := RenderMeshes(t);
    assert "WithLODsCount" in fields && fields["WithLODsCount"] == Number(t.withLods);
    assert "WithoutLODsCount" in fields && fields["WithoutLODsCount"] == Number(t.withoutLods);
  }

  /** With no meshes seen, both buckets are zero and the material histogram is empty. */
  lemma RenderMeshesZero()
    ensures ZeroFields(RenderMeshes(NoMeshes))
  {
    RenderHistogramEmpty("_Materials");
    var zero := Number(0);
    ZeroFieldsUpdate(map[], "WithLODsCount", zero);
    ZeroFieldsUpdate(map["WithLODsCount" := zero], "WithoutLODsCount", zero);
    ZeroFieldsUpdate(map["WithLODsCount" := zero, "WithoutLODsCount" := zero], "ByMaterialCount", Object(map[]));
  }

  /** The rendered section of a traversal: the two LOD buckets and the material histogram each cover every mesh of the kind. */
  lemma MeshesSectionCounts(kind: MeshKind, actors: seq<Actor>)
    ensures var fields, all := RenderMeshes(TraverseMeshes(kind, actors)), AllMeshes(kind, actors);
      && NumberAt(fields, "WithLODsCount") + NumberAt(fields, "WithoutLODsCount") == |all|
      && NumberAt(fields, "WithoutLODsCount") == multiset(Lods(all))[1]
      && Sum(EntriesAt(fields, "ByMaterialCount")) == |all|
  {
    var t, all := TraverseMeshes(kind, actors), AllMeshes(kind, actors);
    RenderMeshesFields(t);
    assert t.withLods + t.withoutLods == |all| && t.withoutLods == multiset(Lods(all))[1]
        && Sum(t.byMaterials) == |all| by {
      TraverseMeshesCounts(kind, actors);
    }
    RenderHistogramSum(t.byMaterials, "_Materials");
  }

  /**
   * The material histogram of a rendered traversal: a material count k that some
   * mesh of the kind has appears under "<k>_Materials" with the number of such
   * meshes, and every entry is of that form.
   */
  lemma MeshesSectionHistogram(kind: MeshKind, actors: seq<Actor>)
    ensures CountsRendered(EntriesAt(RenderMeshes(TraverseMeshes(kind, actors)), "ByMaterialCount"),
                           multiset(Materials(AllMeshes(kind, actors))), "_Materials")
  {
    var t := TraverseMeshes(kind, actors);
    var counts := multiset(Materials(AllMeshes(kind, actors)));
    RenderMeshesFields(t);
    assert (forall k :: k in t.byMaterials <==> k in counts) && (forall k :: Get(t.byMaterials, k) == counts[k]) by {
      TraverseMeshesCounts(kind, actors);
    }
    RenderHistogramEntries(t.byMaterials, counts, "_Materials");
  }

  class MeshMetrics {
    /** Which components this collector reads: static meshes or skeletal meshes. */
    const kind: MeshKind
    var withLODsCount: nat
    var withoutLODsCount: nat
    var materialCountMap: map<nat, nat>

    function Tally(): MeshTally
      reads this
    {
      MeshTally(withLODsCount, withoutLODsCount, materialCountMap)
    }

    constructor (kind: MeshKind)
      ensures this.kind == kind && Tally() == NoMeshes
    {
      this.kind := kind;
      withLODsCount, withoutLODsCount, materialCountMap := 0, 0, map[];
    }

    /** Counts each of the actor's meshes of this collector's kind. */
    method ProcessActor(actor: Actor)
      modifies this
      ensures Tally() == ObserveMeshes(old(Tally()), actor.MeshesOf(kind))
    {
      var meshes := actor.MeshesOf(kind);
      for i := 0 to |meshes|
        invariant Tally() == ObserveMeshes(old(Tally()), meshes[..i])
      {
        ObserveMeshesNext(old(Tally()), meshes, i);
        if meshes[i].lods == 1 {
          withoutLODsCount := withoutLODsCount + 1;
        } else {
          withLODsCount := withLODsCount + 1;
        }
        materialCountMap := Bump(materialCountMap, meshes[i].materials);
      }
      assert meshes[..|meshes|] == meshes;
    }

    function ReportName(): string
    {
      match kind
      case StaticMesh => "StaticMeshes"
      case SkeletalMesh => "SkeletalMeshes"
    }

    /** The section's fields: both buckets, and one "<n>_Materials" entry per key of the material histogram. */
    function GenerateMetricsReport(): (fields: map<string, Field>)
      reads this
      ensures fields.Keys == MeshFields
      ensures fields["WithLODsCount"] == Number(withLODsCount)
      ensures fields["WithoutLODsCount"] == Number(withoutLODsCount)
      ensures fields["ByMaterialCount"].Object?
      ensures Relabels(materialCountMap, fields["ByMaterialCount"].entries, "_Materials")
    {
      RenderMeshesFields(Tally());
      RenderMeshes(Tally())
    }
  }
}
