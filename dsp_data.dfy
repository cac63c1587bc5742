/**
  The `DspGraph` trait as implemented for graph functions (closures and
  function items taking no argument and returning an audio unit).
*/
module DspData {
  import opened FunDsp

  /** A Rust `TypeId`: one per type. */
  type TypeId = nat

  /**
    A version-5 UUID in the OID namespace, derived from a type name. The hash
    itself is not modelled: distinct names give distinct ids.
  */
  datatype Uuid = OidV5(name: string)

  /**
    A graph function value of type `F`: its `TypeId`, the name
    `std::any::type_name::<F>()` reports, and the unit each call builds.
    Distinct types may share a type name (two closures of one function do).
  */
  datatype GraphFn = GraphFn(typeId: TypeId, typeName: string, build: Unit)

  /** `DspGraph::id`: computed from the type name of `F` alone. */
  function Id(g: GraphFn): (id: Uuid)
    ensures id.name == g.typeName
  {
    OidV5(g.typeName)
  }

  /**
    `DspGraph::generate_graph`: call the function, yielding a new unit. Every
    call yields the unit the function builds, exposing the same tags.
  */
  function GenerateGraph(g: GraphFn): (u: Unit)
    ensures u == g.build
    ensures forall t :: Get(u, t) == Get(g.build, t)
  {
    g.build
  }

  /**
    Two graph functions whose types share a name share an id, whatever units
    they build; in particular captured state does not enter the id.
  */
  lemma IdIgnoresBehaviour(f: GraphFn, g: GraphFn)
    requires f.typeName == g.typeName
    ensures Id(f) == Id(g)
  {
  }

  /** Ids separate graph functions exactly by type name. */
  lemma IdDeterminesTypeName(f: GraphFn, g: GraphFn)
    ensures Id(f) == Id(g) <==> f.typeName == g.typeName
  {
  }
}
