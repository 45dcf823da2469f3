/**
 * The scene as the collectors see it: a sequence of actors, each with a name, a class
 * and the components of the four kinds the collectors look at.
 */
module Scene {
  import opened Wrappers

  /** A light component's mobility; any value outside the three known ones is kept as raw. */
  datatype Mobility = Static | Stationary | Movable | Unrecognised(raw: int)
  {
    predicate IsRecognised()
    {
      !Unrecognised?
    }
  }

  /** A static- or skeletal-mesh component: its number of LODs and of materials. */
  datatype Mesh = Mesh(lods: nat, materials: nat)

  /** The two mesh component kinds, which are counted by two collectors of the same shape. */
  datatype MeshKind = StaticMesh | SkeletalMesh

  /** The asset a particle-system component refers to. */
  datatype NiagaraAsset = NiagaraAsset(hasGpuEmitters: bool, emitters: nat)

  datatype Actor = Actor(
    name: string,
    cls: string,
    lights: seq<Mobility>,
    staticMeshes: seq<Mesh>,
    skeletalMeshes: seq<Mesh>,
    niagara: seq<Option<NiagaraAsset>>)
  {
    /** The actor's mesh components of the given kind. */
    function MeshesOf(kind: MeshKind): seq<Mesh>
    {
      match kind
      case StaticMesh => staticMeshes
      case SkeletalMesh => skeletalMeshes
    }
  }

  /** The light components of all actors, actor by actor. */
  function AllLights(actors: seq<Actor>): seq<Mobility>
  {
    if actors == [] then [] else AllLights(actors[..|actors| - 1]) + actors[|actors| - 1].lights
  }

  /** The mesh components of the given kind of all actors, actor by actor. */
  function AllMeshes(kind: MeshKind, actors: seq<Actor>): seq<Mesh>
  {
    if actors == [] then [] else AllMeshes(kind, actors[..|actors| - 1]) + actors[|actors| - 1].MeshesOf(kind)
  }

  /** The particle-system components of all actors, actor by actor. */
  function AllNiagara(actors: seq<Actor>): seq<Option<NiagaraAsset>>
  {
    if actors == [] then [] else AllNiagara(actors[..|actors| - 1]) + actors[|actors| - 1].niagara
  }

  /** The class of every actor. */
  function Classes(actors: seq<Actor>): (r: seq<string>)
  {
    seq(|actors|, i requires 0 <= i < |actors| => actors[i].cls)
  }
}
