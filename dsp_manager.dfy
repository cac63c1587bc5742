/**
  `DspManager`: the registry of DSP sources, keyed by the id of their graph
  function. Every source it holds is stamped with the manager's sample rate.
*/
module Registry {
  import opened Wrappers
  import opened DspData
  import opened DspSources

  class DspManager {
    var collection: map<Uuid, DspSource>
    const sampleRate: real

    /** Each entry sits under its graph's id and carries the manager's sample rate. */
    ghost predicate Valid()
      reads this
    {
      forall id :: id in collection ==>
        Id(collection[id].graph) == id && collection[id].sampleRate == sampleRate
    }

    /**
      `Default::default`. The default sample rate comes from a function that is
      not part of this model, so it is a parameter here.
    */
    constructor Default(defaultSampleRate: real)
      ensures Valid() && collection == map[] && sampleRate == defaultSampleRate
    {
      collection := map[];
      sampleRate := defaultSampleRate;
    }

    /** `DspManager::new`: empty, with the given sample rate. */
    constructor New(sampleRate: real)
      ensures Valid() && collection == map[] && this.sampleRate == sampleRate
    {
      collection := map[];
      this.sampleRate := sampleRate;
    }

    /** `get_graph`: the source registered under the graph's id, if any. */
    function GetGraph(g: GraphFn): (r: Option<DspSource>)
      reads this
      requires Valid()
      ensures r.Some? <==> Id(g) in collection
      ensures r.Some? ==> r.value.sampleRate == sampleRate && r.value.graph.typeName == g.typeName
    {
      if Id(g) in collection then Some(collection[Id(g)]) else None
    }

    /**
      `add_graph`: insert under the graph's id, replacing whatever was there
      (last write wins); other entries are untouched.
    */
    method AddGraph(g: GraphFn, sourceType: SourceType)
      requires Valid()
      modifies this
      ensures Valid()
      ensures collection == old(collection)[Id(g) := DspSources.New(g, sampleRate, sourceType)]
      ensures GetGraph(g) == Some(DspSources.New(g, sampleRate, sourceType))
      ensures forall f :: Id(f) != Id(g) ==> GetGraph(f) == old(GetGraph(f))
    {
      collection := collection[Id(g) := DspSources.New(g, sampleRate, sourceType)];
    }
  }

  /**
    Two graph functions whose types share a name cannot both be registered:
    the second `add_graph` replaces the first, and looking up the first
    yields the second's source.
  */
  method SharedTypeNameOverwrites(m: DspManager, f: GraphFn, g: GraphFn, sf: SourceType, sg: SourceType)
    requires m.Valid() && f.typeName == g.typeName
    modifies m
    ensures m.Valid()
    ensures m.GetGraph(f) == Some(DspSources.New(g, m.sampleRate, sg))
    ensures |m.collection| <= |old(m.collection)| + 1
  {
    m.AddGraph(f, sf);
    m.AddGraph(g, sg);
    IdIgnoresBehaviour(f, g);
    assert m.collection.Keys == old(m.collection).Keys + {Id(f)};
  }
}
