/**
 * The light collector: every light component is counted in exactly one of three
 * buckets chosen by its mobility, and its owning actor's name is counted in the
 * matching per-mobility map. Only the three totals are rendered.
 */
module Lights {
  import opened Histogram
  import opened Scene
  import opened Rendering

  /** The collector's state as a value. */
  datatype LightTally = LightTally(
    staticCount: nat,
    stationaryCount: nat,
    movableCount: nat,
    staticByActor: map<string, nat>,
    stationaryByActor: map<string, nat>,
    movableByActor: map<string, nat>)

  /** The state of a freshly created collector. */
  const NoLights := LightTally(0, 0, 0, map[], map[], map[])

  predicate AllRecognised(ls: seq<Mobility>)
  {
    forall i :: 0 <= i < |ls| ==> ls[i].IsRecognised()
  }

  /** The position of the first light whose mobility is not one of the three known values, |ls| if none. */
  function FirstUnrecognised(ls: seq<Mobility>): (n: nat)
    ensures n <= |ls|
    ensures AllRecognised(ls[..n])
    ensures n < |ls| ==> !ls[n].IsRecognised()
  {
    if ls == [] || !ls[0].IsRecognised() then 0 else 1 + FirstUnrecognised(ls[1..])
  }

  /** The first unrecognised light is the first one after a run of recognised ones. */
  lemma FirstUnrecognisedAt(ls: seq<Mobility>, i: nat)
    requires i <= |ls| && AllRecognised(ls[..i])
    requires i < |ls| ==> !ls[i].IsRecognised()
    ensures FirstUnrecognised(ls) == i
  {
    var n := FirstUnrecognised(ls);
    assert forall j :: 0 <= j < i ==> ls[..i][j] == ls[j];
    assert forall j :: 0 <= j < n ==> ls[..n][j] == ls[j];
  }

  /** One light of the given owner: its bucket's total and the owner's entry in its bucket's map go up by one. */
  function ObserveLight(t: LightTally, owner: string, m: Mobility): LightTally
    requires m.IsRecognised()
  {
    match m
    case Movable =>
      t.(movableCount := t.movableCount + 1, movableByActor := Bump(t.movableByActor, owner))
    case Static =>
      t.(staticCount := t.staticCount + 1, staticByActor := Bump(t.staticByActor, owner))
    case Stationary =>
      t.(stationaryCount := t.stationaryCount + 1, stationaryByActor := Bump(t.stationaryByActor, owner))
  }

  /** The lights of one actor, in order. */
  function ObserveLights(t: LightTally, owner: string, ls: seq<Mobility>): LightTally
    requires AllRecognised(ls)
  {
    if ls == [] then t else ObserveLight(ObserveLights(t, owner, ls[..|ls| - 1]), owner, ls[|ls| - 1])
  }

  /** t with s static, st stationary and mv movable lights more, all owned by owner. */
  function AddLights(t: LightTally, owner: string, s: nat, st: nat, mv: nat): LightTally
  {
    LightTally(
      t.staticCount + s, t.stationaryCount + st, t.movableCount + mv,
      AddCount(t.staticByActor, owner, s),
      AddCount(t.stationaryByActor, owner, st),
      AddCount(t.movableByActor, owner, mv))
  }

  function Indicator(b: bool): nat
  {
    if b then 1 else 0
  }

  /** One light adds one to its own bucket and nothing to the other two. */
  lemma ObserveLightAdds(t: LightTally, owner: string, m: Mobility)
    requires m.IsRecognised()
    ensures ObserveLight(t, owner, m)
         == AddLights(t, owner, Indicator(m == Static), Indicator(m == Stationary), Indicator(m == Movable))
  {
  }

  /** Two batches of lights of the same owner add up. */
  lemma AddLightsAdd(t: LightTally, owner: string, s: nat, st: nat, mv: nat, s': nat, st': nat, mv': nat)
    ensures AddLights(AddLights(t, owner, s, st, mv), owner, s', st', mv')
         == AddLights(t, owner, s + s', st + st', mv + mv')
  {
    AddCountAdd(t.staticByActor, owner, s, s');
    AddCountAdd(t.stationaryByActor, owner, st, st');
    AddCountAdd(t.movableByActor, owner, mv, mv');
  }

  /**
   * The lights of one actor add, to each bucket, the number of its lights of that
   * mobility, and add the same number to the actor's entry in that bucket's map.
   */
  lemma {:induction false} ObserveLightsCounts(t: LightTally, owner: string, ls: seq<Mobility>)
    requires AllRecognised(ls)
    ensures ObserveLights(t, owner, ls)
         == AddLights(t, owner, multiset(ls)[Static], multiset(ls)[Stationary], multiset(ls)[Movable])
  {
    if ls == [] {
      assert AddCount(t.staticByActor, owner, 0) == t.staticByActor;
    } else {
      var p, m := ls[..|ls| - 1], ls[|ls| - 1];
      assert AllRecognised(p) by {
        forall i | 0 <= i < |p| ensures p[i].IsRecognised() { assert p[i] == ls[i]; }
      }
      assert m.IsRecognised();
      ObserveLightsCounts(t, owner, p);
      var q := ObserveLights(t, owner, p);
      assert ObserveLights(t, owner, ls) == ObserveLight(q, owner, m);
      ObserveLightAdds(q, owner, m);
      AddLightsAdd(t, owner, multiset(p)[Static], multiset(p)[Stationary], multiset(p)[Movable],
        Indicator(m == Static), Indicator(m == Stationary), Indicator(m == Movable));
      MultisetLast(ls, Static);
      MultisetLast(ls, Stationary);
      MultisetLast(ls, Movable);
    }
  }

  /** Observing the lights up to and including position i is observing light i after the earlier ones. */
  lemma ObserveLightsNext(t: LightTally, owner: string, ls: seq<Mobility>, i: nat)
    requires i < |ls| && AllRecognised(ls[..i]) && ls[i].IsRecognised()
    ensures AllRecognised(ls[..i + 1])
    ensures ObserveLights(t, owner, ls[..i + 1]) == ObserveLight(ObserveLights(t, owner, ls[..i]), owner, ls[i])
  {
    assert ls[..i + 1][..i] == ls[..i];
    assert forall j :: 0 <= j < i ==> ls[..i][j] == ls[j];
  }

  /** When every mobility is recognised, the three buckets cover every light. */
  lemma {:induction false} RecognisedSplit(ls: seq<Mobility>)
    requires AllRecognised(ls)
    ensures multiset(ls)[Static] + multiset(ls)[Stationary] + multiset(ls)[Movable] == |ls|
  {
    if ls != [] {
      var p, m := ls[..|ls| - 1], ls[|ls| - 1];
      RecognisedSplit(p);
      assert ls == p + [m];
      assert multiset(ls) == multiset(p) + multiset{m};
    }
  }

  /** The scene holds no light of unknown mobility. */
  predicate LightsRecognised(actors: seq<Actor>)
  {
    forall a :: a in actors ==> AllRecognised(a.lights)
  }

  /** The collector's state after observing every actor in order. */
  function TraverseLights(actors: seq<Actor>): LightTally
    requires LightsRecognised(actors)
  {
    if actors == [] then NoLights
    else
      var a := actors[|actors| - 1];
      ObserveLights(TraverseLights(actors[..|actors| - 1]), a.name, a.lights)
  }

  /**
   * After a traversal, each bucket holds the number of lights of its mobility, the
   * three buckets add up to the number of light components, and each per-actor map
   * sums to its bucket's total.
   */
  lemma {:induction false} TraverseLightsCounts(actors: seq<Actor>)
    requires LightsRecognised(actors)
    ensures var r, all := TraverseLights(actors), AllLights(actors);
      && r.staticCount == multiset(all)[Static]
      && r.stationaryCount == multiset(all)[Stationary]
      && r.movableCount == multiset(all)[Movable]
      && r.staticCount + r.stationaryCount + r.movableCount == |all|
      && Sum(r.staticByActor) == r.staticCount
      && Sum(r.stationaryByActor) == r.stationaryCount
      && Sum(r.movableByActor) == r.movableCount
  {
    if actors != [] {
      var p, a := actors[..|actors| - 1], actors[|actors| - 1];
      assert LightsRecognised(p) by {
        forall b | b in p ensures AllRecognised(b.lights) {
          assert b in actors;
        }
      }
      assert a in actors;
      TraverseLightsCounts(p);
      var t := TraverseLights(p);
      ObserveLightsCounts(t, a.name, a.lights);
      RecognisedSplit(a.lights);
      assert multiset(AllLights(actors)) == multiset(AllLights(p)) + multiset(a.lights);
      SumAddCount(t.staticByActor, a.name, multiset(a.lights)[Static]);
      SumAddCount(t.stationaryByActor, a.name, multiset(a.lights)[Stationary]);
      SumAddCount(t.movableByActor, a.name, multiset(a.lights)[Movable]);
    }
  }

  /** The "Lights" section: the three totals; the per-actor maps are not rendered. */
  function RenderLights(t: LightTally): map<string, Field>
  {
    map[
      "StaticLightCount" := Number(t.staticCount),
      "StationaryLightCount" := Number(t.stationaryCount),
      "MoveableLightCount" := Number(t.movableCount)]
  }

  /** The fields of every "Lights" section, whatever the counts. */
  const LightFields: set<string> := {"StaticLightCount", "StationaryLightCount", "MoveableLightCount"}

  /**
   * The rendered section has exactly the three total fields, each a number holding
   * the tally's total of the same mobility, zero included.
   */
  lemma RenderLightsFields(t: LightTally)
    ensures RenderLights(t).Keys == LightFields
    ensures RenderLights(t)["StaticLightCount"] == Number(t.staticCount)
    ensures RenderLights(t)["StationaryLightCount"] == Number(t.stationaryCount)
    ensures RenderLights(t)["MoveableLightCount"] == Number(t.movableCount)
    ensures NumberAt(RenderLights(t), "StaticLightCount") == t.staticCount
    ensures NumberAt(RenderLights(t), "StationaryLightCount") == t.stationaryCount
    ensures NumberAt(RenderLights(t), "MoveableLightCount") == t.movableCount
  {
    var fields := RenderLights(t);
    assert "StaticLightCount" in fields && fields["StaticLightCount"] == Number(t.staticCount);
    assert "StationaryLightCount" in fields && fields["StationaryLightCount"] == Number(t.stationaryCount);
    assert "MoveableLightCount" in fields && fields["MoveableLightCount"] == Number(t.movableCount);
  }

  /** With no lights seen, every rendered total is zero. */
  lemma RenderLightsZero()
    ensures ZeroFields(RenderLights(NoLights))
  {
    var zero := Number(0);
    ZeroFieldsUpdate(map[], "StaticLightCount", zero);
    ZeroFieldsUpdate(map["StaticLightCount" := zero], "StationaryLightCount", zero);
    ZeroFieldsUpdate(map["StaticLightCount" := zero, "StationaryLightCount" := zero], "MoveableLightCount", zero);
  }

  /** The rendered "Lights" section of a traversal: its three totals cover every light component. */
  lemma LightsSectionCounts(actors: seq<Actor>)
    requires LightsRecognised(actors)
    ensures var fields := RenderLights(TraverseLights(actors));
      && NumberAt(fields, "StaticLightCount") == multiset(AllLights(actors))[Static]
      && NumberAt(fields, "StationaryLightCount") == multiset(AllLights(actors))[Stationary]
      && NumberAt(fields, "MoveableLightCount") == multiset(AllLights(actors))[Movable]
      && NumberAt(fields, "StaticLightCount") + NumberAt(fields, "StationaryLightCount")
         + NumberAt(fields, "MoveableLightCount") == |AllLights(actors)|
  {
    var t, all := TraverseLights(actors), AllLights(actors);
    RenderLightsFields(t);
    assert t.staticCount == multiset(all)[Static] && t.stationaryCount == multiset(all)[Stationary]
        && t.movableCount == multiset(all)[Movable] by {
      TraverseLightsCounts(actors);
    }
    assert t.staticCount + t.stationaryCount + t.movableCount == |all| by {
      TraverseLightsCounts(actors);
    }
  }

  class LightMetrics {
    var staticLightCount: nat
    var stationaryLightCount: nat
    var moveableLightCount: nat
    var staticLightComponentsMap: map<string, nat>
    var stationaryLightComponentsMap: map<string, nat>
    var moveableLightComponentsMap: map<string, nat>

    function Tally(): LightTally
      reads this
    {
      LightTally(staticLightCount, stationaryLightCount, moveableLightCount,
                 staticLightComponentsMap, stationaryLightComponentsMap, moveableLightComponentsMap)
    }

    constructor ()
      ensures Tally() == NoLights
    {
      staticLightCount, stationaryLightCount, moveableLightCount := 0, 0, 0;
      staticLightComponentsMap, stationaryLightComponentsMap, moveableLightComponentsMap := map[], map[], map[];
    }

    /**
     * Counts the actor's lights in order. A light of unknown mobility stops the
     * processing (ok is false): the lights before it stay counted, it and the lights
     * after it are not.
     */
    method ProcessActor(actor: Actor) returns (ok: bool)
      modifies this
      ensures ok == AllRecognised(actor.lights)
      ensures Tally() == ObserveLights(old(Tally()), actor.name, actor.lights[..FirstUnrecognised(actor.lights)])
    {
      var lights := actor.lights;
      for i := 0 to |lights|
        invariant AllRecognised(lights[..i])
        invariant Tally() == ObserveLights(old(Tally()), actor.name, lights[..i])
      {
        if !lights[i].IsRecognised() {
          FirstUnrecognisedAt(lights, i);
          return false;
        }
        ObserveLightsNext(old(Tally()), actor.name, lights, i);
        CountLight(actor.name, lights[i]);
      }
      FirstUnrecognisedAt(lights, |lights|);
      assert lights[..|lights|] == lights;
      return true;
    }

    /** Counts one light of a known mobility in its bucket and under its owner. */
    method CountLight(owner: string, mobility: Mobility)
      requires mobility.IsRecognised()
      modifies this
      ensures Tally() == ObserveLight(old(Tally()), owner, mobility)
    {
      match mobility
      case Movable =>
        moveableLightCount := moveableLightCount + 1;
        moveableLightComponentsMap := Bump(moveableLightComponentsMap, owner);
      case Static =>
        staticLightCount := staticLightCount + 1;
        staticLightComponentsMap := Bump(staticLightComponentsMap, owner);
      case Stationary =>
        stationaryLightCount := stationaryLightCount + 1;
        stationaryLightComponentsMap := Bump(stationaryLightComponentsMap, owner);
    }

    function ReportName(): string
    {
      "Lights"
    }

    /** The section's fields: exactly the three totals, read without changing anything. */
    function GenerateMetricsReport(): (fields: map<string, Field>)
      reads this
      ensures fields.Keys == LightFields
      ensures fields["StaticLightCount"] == Number(staticLightCount)
      ensures fields["StationaryLightCount"] == Number(stationaryLightCount)
      ensures fields["MoveableLightCount"] == Number(moveableLightCount)
    {
      RenderLightsFields(Tally());
      RenderLights(Tally())
    }
  }
}
