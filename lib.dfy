/**
  The earlier registry API: `DspManager` keys graph functions by `TypeId`
  and stores each with a length in seconds; `add_assets` renders every
  registered graph into the host's asset store and returns one handle per
  graph as `DspAssets`.
*/
module LegacyRegistry {
  import opened Wrappers
  import opened FunDsp
  import opened DspData

  /** `DspSource` in this API: a built unit and a length in seconds. */
  datatype DspSource = DspSource(graph: Unit, length: real)

  /** `DspSource::new`: box the given unit. */
  function NewSource(graph: Unit, length: real): (s: DspSource)
    ensures s.graph == graph && s.length == length
  {
    DspSource(graph, length)
  }

  /** `DspSource::from_boxed`: take an already boxed unit. */
  function FromBoxed(graph: Unit, length: real): (s: DspSource)
    ensures s.graph == graph && s.length == length
  {
    DspSource(graph, length)
  }

  /**
    The manager's entry: the graph function and its length. The `settings`
    field is `()` for the bevy_audio and oddio back ends and is not modelled.
  */
  datatype DspGraph = DspGraph(func: GraphFn, length: real)

  /** A strong handle into the asset store. */
  datatype Handle = Handle(id: nat)

  /**
    What `into_audio_source(sample_rate)` is applied to when an asset is made;
    the conversion itself belongs to the back ends and is not modelled.
  */
  datatype AudioAsset = AudioAsset(source: DspSource, sampleRate: real)

  /** The host's `Assets<AudioSource>`: every `add` hands out a new handle. */
  class AssetStore {
    var assets: map<Handle, AudioAsset>
    var next: nat

    ghost predicate Valid()
      reads this
    {
      forall h :: h in assets ==> h.id < next
    }

    constructor ()
      ensures Valid() && assets == map[]
    {
      assets := map[];
      next := 0;
    }

    /** `Assets::add`: store the asset under a handle not in use before. */
    method Add(a: AudioAsset) returns (h: Handle)
      requires Valid()
      modifies this
      ensures Valid()
      ensures h !in old(assets) && assets == old(assets)[h := a]
    {
      h := Handle(next);
      assets := assets[h := a];
      next := next + 1;
    }
  }

  /** `DspAssets`: one handle per graph function type. */
  datatype DspAssets = DspAssets(handles: map<TypeId, Handle>) {

    /** `DspAssets::get_graph`: `Some` exactly when the function's type was registered. */
    function GetGraph(f: GraphFn): (r: Option<Handle>)
      ensures r.Some? <==> f.typeId in handles
      ensures r.Some? ==> r.value == handles[f.typeId]
    {
      if f.typeId in handles then Some(handles[f.typeId]) else None
    }

    /** `DspAssets::graph`: panics when the function's type was not registered. */
    function Graph(f: GraphFn): (h: Handle)
      requires f.typeId in handles
      ensures GetGraph(f) == Some(h)
    {
      handles[f.typeId]
    }
  }

  /** Inserting under a new key adds exactly the new value to the map's values. */
  lemma ValuesAfterInsert<K, V>(m: map<K, V>, k: K, v: V)
    requires k !in m
    ensures m[k := v].Values == m.Values + {v}
  {
    var m' := m[k := v];
    forall x | x in m'.Values
      ensures x in m.Values + {v}
    {
      var j :| j in m' && m'[j] == x;
      if j != k {
        assert m[j] == x;
      }
    }
    forall x | x in m.Values + {v}
      ensures x in m'.Values
    {
      if x == v {
        assert m'[k] == v;
      } else {
        var j :| j in m && m[j] == x;
        assert m'[j] == x;
      }
    }
  }

  class DspManager {
    var graphs: map<TypeId, DspGraph>
    const sampleRate: real

    /** `Default::default`: no graphs, 44100 Hz. */
    constructor Default()
      ensures graphs == map[] && sampleRate == 44100.0
    {
      graphs := map[];
      sampleRate := 44100.0;
    }

    /**
      `add_graph`: insert under the function's `TypeId`, replacing whatever was
      there (last write wins); the manager is returned for chaining.
    */
    method AddGraph(f: GraphFn, length: real) returns (self: DspManager)
      modifies this
      ensures self == this
      ensures graphs == old(graphs)[f.typeId := DspGraph(f, length)]
      ensures GetGraph(f) == Some(FromBoxed(GenerateGraph(f), length))
      ensures forall g: GraphFn :: g.typeId != f.typeId ==> GetGraph(g) == old(GetGraph(g))
    {
      graphs := graphs[f.typeId := DspGraph(f, length)];
      self := this;
    }

    /**
      `remove_graph`: drop the entry under the function's `TypeId`, if any;
      other entries are untouched.
    */
    method RemoveGraph(f: GraphFn) returns (self: DspManager)
      modifies this
      ensures self == this
      ensures graphs == old(graphs) - {f.typeId}
      ensures GetGraph(f) == None
      ensures forall g: GraphFn :: g.typeId != f.typeId ==> GetGraph(g) == old(GetGraph(g))
      ensures f.typeId !in old(graphs) ==> graphs == old(graphs)
    {
      graphs := graphs - {f.typeId};
      self := this;
    }

    /**
      `get_graph`: a new source built by the STORED function (not the argument,
      which only supplies the key) with the stored length.
    */
    function GetGraph(f: GraphFn): (r: Option<DspSource>)
      reads this
      ensures r.Some? <==> f.typeId in graphs
      ensures r.Some? ==> r.value.length == graphs[f.typeId].length
      ensures r.Some? ==> r.value.graph == GenerateGraph(graphs[f.typeId].func)
    {
      if f.typeId in graphs then
        var graph := graphs[f.typeId];
        Some(FromBoxed(GenerateGraph(graph.func), graph.length))
      else None
    }

    /** The asset `add_assets` makes for one entry. */
    ghost function AssetFor(k: TypeId): AudioAsset
      reads this
      requires k in graphs
    {
      AudioAsset(FromBoxed(GenerateGraph(graphs[k].func), graphs[k].length), sampleRate)
    }

    /**
      `add_assets`: for every registered graph, in the map's iteration order
      (unspecified), build a unit, add its asset to the store and keep the
      new handle under the graph's key.
    */
    method AddAssets(store: AssetStore) returns (r: DspAssets)
      requires store.Valid()
      modifies store
      ensures store.Valid()
      ensures r.handles.Keys == graphs.Keys
      ensures forall k, k' :: k in r.handles && k' in r.handles && k != k' ==>
        r.handles[k] != r.handles[k']
      ensures forall k :: k in r.handles ==>
        r.handles[k] !in old(store.assets) && r.handles[k] in store.assets &&
        store.assets[r.handles[k]] == AssetFor(k)
      ensures store.assets.Keys == old(store.assets).Keys + r.handles.Values
      ensures forall h :: h in old(store.assets) ==> store.assets[h] == old(store.assets)[h]
    {
      var handles: map<TypeId, Handle> := map[];
      var todo := graphs.Keys;
      while todo != {}
        invariant store.Valid()
        invariant todo <= graphs.Keys && handles.Keys == graphs.Keys - todo
        invariant forall k, k' :: k in handles && k' in handles && k != k' ==>
          handles[k] != handles[k']
        invariant forall k :: k in handles ==>
          handles[k] !in old(store.assets) && handles[k] in store.assets &&
          store.assets[handles[k]] == AssetFor(k)
        invariant store.assets.Keys == old(store.assets).Keys + handles.Values
        invariant forall h :: h in old(store.assets) ==> store.assets[h] == old(store.assets)[h]
        decreases todo
      {
        var k :| k in todo;
        var graph := graphs[k];
        var dspSource := FromBoxed(GenerateGraph(graph.func), graph.length);
        var h := store.Add(AudioAsset(dspSource, sampleRate));
        ValuesAfterInsert(handles, k, h);
        handles := handles[k := h];
        todo := todo - {k};
      }
      r := DspAssets(handles);
    }
  }
}
