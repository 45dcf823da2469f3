/**
 * The actor collector: every actor, whatever its components, adds one to the actor
 * total and one to the entry of its class.
 */
module Actors {
  import opened Histogram
  import opened Scene
  import opened Rendering

  /** The collector's state as a value; classes are identified by their name. */
  datatype ActorTally = ActorTally(actorCount: nat, byClass: map<string, nat>)

  /** The state of a freshly created collector. */
  const NoActors := ActorTally(0, map[])

  /** One actor: the total and its class's entry go up by one. */
  function ObserveActor(t: ActorTally, a: Actor): ActorTally
  {
    ActorTally(t.actorCount + 1, Bump(t.byClass, a.cls))
  }

  /** The collector's state after observing every actor in order. */
  function TraverseActors(actors: seq<Actor>): ActorTally
  {
    if actors == [] then NoActors else ObserveActor(TraverseActors(actors[..|actors| - 1]), actors[|actors| - 1])
  }

  /** The state after a traversal: the number of actors, and the histogram of their classes. */
  lemma {:induction false} TraverseActorsTabulates(actors: seq<Actor>)
    ensures TraverseActors(actors) == ActorTally(|actors|, Tabulate(map[], Classes(actors)))
  {
    if actors != [] {
      TraverseActorsTabulates(actors[..|actors| - 1]);
      assert Classes(actors[..|actors| - 1]) == Classes(actors)[..|actors| - 1];
    }
  }

  /**
   * After a traversal ActorCount is the number of actors, every class met is a key
   * whose count is the number of actors of that class, and the counts add up to
   * ActorCount.
   */
  lemma TraverseActorsCounts(actors: seq<Actor>)
    ensures var r := TraverseActors(actors);
      && r.actorCount == |actors|
      && (forall c :: c in r.byClass <==> c in multiset(Classes(actors)))
      && (forall c :: Get(r.byClass, c) == multiset(Classes(actors))[c])
      && Sum(r.byClass) == r.actorCount
  {
    TraverseActorsTabulates(actors);
    TabulateCounts(map[], Classes(actors));
    TabulateSum(map[], Classes(actors));
  }

  /** The "Actors" section: the total and the per-class counts keyed by class name. */
  function RenderActors(t: ActorTally): map<string, Field>
  {
    map["ActorCount" := Number(t.actorCount), "ByClass" := Object(t.byClass)]
  }

  /** The fields of every "Actors" section, whatever the counts. */
  const ActorFields: set<string> := {"ActorCount", "ByClass"}

  /**
   * The rendered section has exactly two fields: "ActorCount", a number holding the
   * total, and "ByClass", an object holding the per-class counts.
   */
  lemma RenderActorsFields(t: ActorTally)
    ensures RenderActors(t).Keys == ActorFields
    ensures RenderActors(t)["ActorCount"] == Number(t.actorCount)
    ensures RenderActors(t)["ByClass"] == Object(t.byClass)
    ensures NumberAt(RenderActors(t), "ActorCount") == t.actorCount
    ensures EntriesAt(RenderActors(t), "ByClass") == t.byClass
  {
    var fields := RenderActors(t);
    assert "ActorCount" in fields && fields["ActorCount"] == Number(t.actorCount);
    assert "ByClass" in fields && fields["ByClass"] == Object(t.byClass);
  }

  /** With no actors seen, ActorCount is zero and the per-class counts are empty. */
  lemma RenderActorsZero()
    ensures ZeroFields(RenderActors(NoActors))
  {
    ZeroFieldsUpdate(map[], "ActorCount", Number(0));
    ZeroFieldsUpdate(map["ActorCount" := Number(0)], "ByClass", Object(map[]));
  }

  /** The rendered "Actors" section of a traversal: ActorCount and the per-class counts both cover every actor. */
  lemma ActorsSectionCounts(actors: seq<Actor>)
    ensures var fields := RenderActors(TraverseActors(actors));
      && NumberAt(fields, "ActorCount") == |actors|
      && EntriesAt(fields, "ByClass") == TraverseActors(actors).byClass
      && Sum(EntriesAt(fields, "ByClass")) == |actors|
  {
    var t := TraverseActors(actors);
    RenderActorsFields(t);
    assert t.actorCount == |actors| && Sum(t.byClass) == t.actorCount by {
      TraverseActorsCounts(actors);
    }
  }

  class ActorMetrics {
    var actorCount: nat
    var actorMap: map<string, nat>

    function Tally(): ActorTally
      reads this
    {
      ActorTally(actorCount, actorMap)
    }

    constructor ()
      ensures Tally() == NoActors
    {
      actorCount, actorMap := 0, map[];
    }

    method ProcessActor(actor: Actor)
      modifies this
      ensures Tally() == ObserveActor(old(Tally()), actor)
    {
      actorCount := actorCount + 1;
      actorMap := Bump(actorMap, actor.cls);
    }

    function ReportName(): string
    {
      "Actors"
    }

    /** The section's fields: the actor count and the per-class counts. */
    function GenerateMetricsReport(): (fields: map<string, Field>)
      reads this
      ensures fields.Keys == ActorFields
      ensures fields["ActorCount"] == Number(actorCount)
      ensures fields["ByClass"] == Object(actorMap)
    {
      RenderActorsFields(Tally());
      RenderActors(Tally())
    }
  }
}
