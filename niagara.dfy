/**
 * The particle-system (Niagara) collector. A component without an asset is only
 * counted as such; a component with an asset is counted as with or without GPU
 * emitters, and the asset's emitter count is counted in a histogram.
 */
module Niagara {
  import opened Wrappers
  import opened Histogram
  import opened Scene
  import opened Rendering

  /** The collector's state as a value. */
  datatype NiagaraTally = NiagaraTally(withoutAsset: nat, withoutGpu: nat, withGpu: nat, byEmitters: map<nat, nat>)

  /** The state of a freshly created collector. */
  const NoNiagara := NiagaraTally(0, 0, 0, map[])

  /** One component. */
  function ObserveComponent(t: NiagaraTally, c: Option<NiagaraAsset>): NiagaraTally
  {
    match c
    case Some(asset) =>
      var t' := if asset.hasGpuEmitters then t.(withGpu := t.withGpu + 1) else t.(withoutGpu := t.withoutGpu + 1);
      t'.(byEmitters := Bump(t.byEmitters, asset.emitters))
    case None =>
      t.(withoutAsset := t.withoutAsset + 1)
  }

  /** The components, in order. */
  function ObserveComponents(t: NiagaraTally, cs: seq<Option<NiagaraAsset>>): NiagaraTally
  {
    if cs == [] then t else ObserveComponent(ObserveComponents(t, cs[..|cs| - 1]), cs[|cs| - 1])
  }

  /** The assets the components refer to, in order, skipping components without one. */
  function Assets(cs: seq<Option<NiagaraAsset>>): seq<NiagaraAsset>
  {
    if cs == [] then []
    else
      var rest := Assets(cs[..|cs| - 1]);
      match cs[|cs| - 1]
      case Some(asset) => rest + [asset]
      case None => rest
  }

  /** The GPU flag of every asset. */
  function GpuFlags(assets: seq<NiagaraAsset>): seq<bool>
  {
    seq(|assets|, i requires 0 <= i < |assets| => assets[i].hasGpuEmitters)
  }

  /** The emitter count of every asset. */
  function EmitterCounts(assets: seq<NiagaraAsset>): seq<nat>
  {
    seq(|assets|, i requires 0 <= i < |assets| => assets[i].emitters)
  }

  /** Every component either has no asset or contributes its asset. */
  lemma {:induction false} AssetsCount(cs: seq<Option<NiagaraAsset>>)
    ensures multiset(cs)[None] + |Assets(cs)| == |cs|
  {
    if cs != [] {
      AssetsCount(cs[..|cs| - 1]);
      MultisetLast(cs, None);
    }
  }

  /** Observing a concatenation is observing its two parts one after the other. */
  lemma {:induction false} ObserveComponentsAppend(t: NiagaraTally, cs: seq<Option<NiagaraAsset>>, ds: seq<Option<NiagaraAsset>>)
    ensures ObserveComponents(t, cs + ds) == ObserveComponents(ObserveComponents(t, cs), ds)
    decreases |ds|
  {
    if ds != [] {
      assert (cs + ds)[..|cs + ds| - 1] == cs + ds[..|ds| - 1];
      ObserveComponentsAppend(t, cs, ds[..|ds| - 1]);
    } else {
      assert cs + ds == cs;
    }
  }

  /**
   * Components without an asset add only to WithoutAssetCount; each asset adds to
   * exactly one of the two GPU buckets, to WithGPUEmitterCount when it has GPU
   * emitters, and one occurrence of its emitter count to the histogram.
   */
  lemma ObserveComponentsCounts(t: NiagaraTally, cs: seq<Option<NiagaraAsset>>)
    ensures var r, assets := ObserveComponents(t, cs), Assets(cs);
      && r.withoutAsset == t.withoutAsset + multiset(cs)[None]
      && r.withGpu + r.withoutGpu == t.withGpu + t.withoutGpu + |assets|
      && r.withGpu == t.withGpu + multiset(GpuFlags(assets))[true]
      && r.byEmitters == Tabulate(t.byEmitters, EmitterCounts(assets))
  {
    ObserveComponentsCounters(t, cs);
    ObserveComponentsEmitters(t, cs);
  }

  /** The three counters: components without an asset, and the assets split by GPU emitters. */
  lemma {:induction false} ObserveComponentsCounters(t: NiagaraTally, cs: seq<Option<NiagaraAsset>>)
    ensures var r, assets := ObserveComponents(t, cs), Assets(cs);
      && r.withoutAsset == t.withoutAsset + multiset(cs)[None]
      && r.withGpu + r.withoutGpu == t.withGpu + t.withoutGpu + |assets|
      && r.withGpu == t.withGpu + multiset(GpuFlags(assets))[true]
  {
    if cs != [] {
      var p := cs[..|cs| - 1];
      ObserveComponentsCounters(t, p);
      MultisetLast(cs, None);
      var assets := Assets(cs);
      if cs[|cs| - 1].Some? {
        assert assets[..|assets| - 1] == Assets(p);
        assert GpuFlags(Assets(p)) == GpuFlags(assets)[..|assets| - 1];
        MultisetLast(GpuFlags(assets), true);
      }
    }
  }

  /** The emitter histogram tabulates the emitter counts of the components that have an asset. */
  lemma {:induction false} ObserveComponentsEmitters(t: NiagaraTally, cs: seq<Option<NiagaraAsset>>)
    ensures ObserveComponents(t, cs).byEmitters == Tabulate(t.byEmitters, EmitterCounts(Assets(cs)))
  {
    if cs != [] {
      var p := cs[..|cs| - 1];
      ObserveComponentsEmitters(t, p);
      var assets := Assets(cs);
      if cs[|cs| - 1].Some? {
        assert assets[..|assets| - 1] == Assets(p);
        assert EmitterCounts(Assets(p)) == EmitterCounts(assets)[..|assets| - 1];
      }
    }
  }

  /** The collector's state after observing every actor in order. */
  function TraverseNiagara(actors: seq<Actor>): NiagaraTally
  {
    if actors == [] then NoNiagara
    else ObserveComponents(TraverseNiagara(actors[..|actors| - 1]), actors[|actors| - 1].niagara)
  }

  /** A traversal observes the components of all actors as one sequence. */
  lemma {:induction false} TraverseNiagaraFlat(actors: seq<Actor>)
    ensures TraverseNiagara(actors) == ObserveComponents(NoNiagara, AllNiagara(actors))
  {
    if actors != [] {
      var p := actors[..|actors| - 1];
      TraverseNiagaraFlat(p);
      ObserveComponentsAppend(NoNiagara, AllNiagara(p), actors[|actors| - 1].niagara);
    }
  }

  /**
   * After a traversal the three counters add up to the number of components, the
   * components without an asset are exactly WithoutAssetCount, the histogram holds,
   * for each emitter count, the number of assets with it, and its values add up to
   * the number of components that have an asset.
   */
  lemma TraverseNiagaraCounts(actors: seq<Actor>)
    ensures var r, all := TraverseNiagara(actors), AllNiagara(actors);
      && r.withoutAsset + r.withoutGpu + r.withGpu == |all|
      && r.withoutAsset == multiset(all)[None]
      && r.withGpu == multiset(GpuFlags(Assets(all)))[true]
      && (forall k :: k in r.byEmitters <==> k in multiset(EmitterCounts(Assets(all))))
      && (forall k :: Get(r.byEmitters, k) == multiset(EmitterCounts(Assets(all)))[k])
      && Sum(r.byEmitters) == r.withGpu + r.withoutGpu
  {
    var all := AllNiagara(actors);
    TraverseNiagaraFlat(actors);
    ObserveComponentsCounts(NoNiagara, all);
    AssetsCount(all);
    TabulateCounts(map[], EmitterCounts(Assets(all)));
    TabulateSum(map[], EmitterCounts(Assets(all)));
  }

  /** The "Niagara" section: the three counters and the "<n>_Emitters" histogram, under "ByMaterialCount". */
  function RenderNiagara(t: NiagaraTally): map<string, Field>
  {
    map[
      "WithoutAssetCount" := Number(t.withoutAsset),
      "WithoutGPUEmitterCount" := Number(t.withoutGpu),
      "WithGPUEmitterCount" := Number(t.withGpu),
      "ByMaterialCount" := Object(RenderHistogram(t.byEmitters, "_Emitters"))]
  }

  /** The fields of every "Niagara" section, whatever the counts. */
  const NiagaraFields: set<string> := {"WithoutAssetCount", "WithoutGPUEmitterCount", "WithGPUEmitterCount", "ByMaterialCount"}

  /**
   * The rendered section has exactly the three counter fields, numbers holding the
   * tally's counters, and the "ByMaterialCount" object holding the labelled emitter
   * histogram.
   */
  lemma RenderNiagaraFields(t: NiagaraTally)
    ensures RenderNiagara(t).Keys == NiagaraFields
    ensures RenderNiagara(t)["WithoutAssetCount"] == Number(t.withoutAsset)
    ensures RenderNiagara(t)["WithoutGPUEmitterCount"] == Number(t.withoutGpu)
    ensures RenderNiagara(t)["WithGPUEmitterCount"] == Number(t.withGpu)
    ensures RenderNiagara(t)["ByMaterialCount"].Object?
    ensures NumberAt(RenderNiagara(t), "WithoutAssetCount") == t.withoutAsset
    ensures NumberAt(RenderNiagara(t), "WithoutGPUEmitterCount") == t.withoutGpu
    ensures NumberAt(RenderNiagara(t), "WithGPUEmitterCount") == t.withGpu
    ensures EntriesAt(RenderNiagara(t), "ByMaterialCount") == RenderHistogram(t.byEmitters, "_Emitters")
  {
    var fields := RenderNiagara(t);
    assert "WithoutAssetCount" in fields && fields["WithoutAssetCount"] == Number(t.withoutAsset);
    assert "WithoutGPUEmitterCount" in fields && fields["WithoutGPUEmitterCount"] == Number(t.withoutGpu);
    assert "WithGPUEmitterCount" in fields && fields["WithGPUEmitterCount"] == Number(t.withGpu);
  }

  /** With no components seen, every counter is zero and the emitter histogram is empty. */
  lemma RenderNiagaraZero()
    ensures ZeroFields(RenderNiagara(NoNiagara))
  {
    RenderHistogramEmpty("_Emitters");
    var zero := Number(0);
    ZeroFieldsUpdate(map[], "WithoutAssetCount", zero);
    ZeroFieldsUpdate(map["WithoutAssetCount" := zero], "WithoutGPUEmitterCount", zero);
    ZeroFieldsUpdate(map["WithoutAssetCount" := zero, "WithoutGPUEmitterCount" := zero], "WithGPUEmitterCount", zero);
    ZeroFieldsUpdate(map["WithoutAssetCount" := zero, "WithoutGPUEmitterCount" := zero, "WithGPUEmitterCount" := zero],
                     "ByMaterialCount", Object(map[]));
  }

  /**
   * The rendered "Niagara" section of a traversal: the three counters cover every
   * component, and the entries of the emitter histogram cover the components that
   * have an asset.
   */
  lemma NiagaraSectionCounts(actors: seq<Actor>)
    ensures var fields, all := RenderNiagara(TraverseNiagara(actors)), AllNiagara(actors);
      && NumberAt(fields, "WithoutAssetCount") + NumberAt(fields, "WithoutGPUEmitterCount")
         + NumberAt(fields, "WithGPUEmitterCount") == |all|
      && NumberAt(fields, "WithoutAssetCount") == multiset(all)[None]
      && Sum(EntriesAt(fields, "ByMaterialCount"))
         == NumberAt(fields, "WithGPUEmitterCount") + NumberAt(fields, "WithoutGPUEmitterCount")
  {
    var t, all := TraverseNiagara(actors), AllNiagara(actors);
    var fields := RenderNiagara(t);
    RenderNiagaraFields(t);
    assert t.withoutAsset + t.withoutGpu + t.withGpu == |all| && t.withoutAsset == multiset(all)[None]
        && Sum(t.byEmitters) == t.withGpu + t.withoutGpu by {
      TraverseNiagaraCounts(actors);
    }
    assert Sum(EntriesAt(fields, "ByMaterialCount")) == Sum(t.byEmitters) by {
      RenderHistogramSum(t.byEmitters, "_Emitters");
    }
  }

  class NiagaraMetrics {
    var withoutAssetCount: nat
    var withoutGPUEmitterCount: nat
    var withGPUEmitterCount: nat
    var emitterNumMap: map<nat, nat>

    function Tally(): NiagaraTally
      reads this
    {
      NiagaraTally(withoutAssetCount, withoutGPUEmitterCount, withGPUEmitterCount, emitterNumMap)
    }

    constructor ()
      ensures Tally() == NoNiagara
    {
      withoutAssetCount, withoutGPUEmitterCount, withGPUEmitterCount, emitterNumMap := 0, 0, 0, map[];
    }

    /** Counts each of the actor's particle-system components. */
    method ProcessActor(actor: Actor)
      modifies this
      ensures Tally() == ObserveComponents(old(Tally()), actor.niagara)
    {
      var components := actor.niagara;
      for i := 0 to |components|
        invariant Tally() == ObserveComponents(old(Tally()), components[..i])
      {
        assert components[..i + 1][..i] == components[..i];
        match components[i]
        case Some(asset) =>
          if asset.hasGpuEmitters {
            withGPUEmitterCount := withGPUEmitterCount + 1;
          } else {
            withoutGPUEmitterCount := withoutGPUEmitterCount + 1;
          }
          emitterNumMap := Bump(emitterNumMap, asset.emitters);
        case None =>
          withoutAssetCount := withoutAssetCount + 1;
      }
      assert components[..|components|] == components;
    }

    function ReportName(): string
    {
      "Niagara"
    }

    /** The section's fields: the three counters, and one "<n>_Emitters" entry per key of the emitter histogram. */
    function GenerateMetricsReport(): (fields: map<string, Field>)
      reads this
      ensures fields.Keys == NiagaraFields
      ensures fields["WithoutAssetCount"] == Number(withoutAssetCount)
      ensures fields["WithoutGPUEmitterCount"] == Number(withoutGPUEmitterCount)
      ensures fields["WithGPUEmitterCount"] == Number(withGPUEmitterCount)
      ensures fields["ByMaterialCount"].Object?
      ensures Relabels(emitterNumMap, fields["ByMaterialCount"].entries, "_Emitters")
    {
      RenderNiagaraFields(Tally());
      RenderNiagara(Tally())
    }
  }
}
